/**
 * The browser-side display helpers (static/script.js): the symptom-name
 * formatter, the risk class and risk level chosen from the confidence, and
 * the CSS class of the health message.
 */
module Display {
  import opened Prelude
  import Predictor

  /** `toUpperCase` on one character; only the ASCII letters are mapped. */
  function Upper(c: char): (u: char)
    ensures ('a' <= c <= 'z') == (u != c)
    ensures 'a' <= c <= 'z' ==> 'A' <= u <= 'Z' && u as int == c as int - 32
  {
    if 'a' <= c <= 'z' then (c as int - 32) as char else c
  }

  /** `s.split(sep)`: the pieces between separators; never empty, an empty piece where two separators meet. */
  function Split(s: string, sep: char): (pieces: seq<string>)
    ensures |pieces| == Count(s, sep) + 1
    ensures forall k :: 0 <= k < |pieces| ==> sep !in pieces[k]
  {
    if s == [] then [[]]
    else
      var rest := Split(s[1..], sep);
      if s[0] == sep then [[]] + rest
      else [[s[0]] + rest[0]] + rest[1..]
  }

  /** `pieces.join(sep)`: the pieces in order, `sep` between each two. */
  function Join(pieces: seq<string>, sep: string): (r: string)
    ensures pieces != [] ==> |r| == TotalLength(pieces) + (|pieces| - 1) * |sep|
    ensures pieces != [] ==> r[..|pieces[0]|] == pieces[0]
  {
    if pieces == [] then []
    else if |pieces| == 1 then pieces[0]
    else pieces[0] + sep + Join(pieces[1..], sep)
  }

  /** The summed length of the pieces. */
  function TotalLength(pieces: seq<string>): nat {
    if pieces == [] then 0 else |pieces[0]| + TotalLength(pieces[1..])
  }

  /** `word.charAt(0).toUpperCase() + word.slice(1)`. */
  function Capitalize(word: string): (r: string)
    ensures |r| == |word|
    ensures word != [] ==> r[0] == Upper(word[0]) && r[1..] == word[1..]
  {
    if word == [] then [] else [Upper(word[0])] + word[1..]
  }

  /** `.map(word => ...)` over the pieces. */
  function CapitalizeAll(words: seq<string>): (r: seq<string>)
    ensures |r| == |words|
    ensures forall k :: 0 <= k < |r| ==> r[k] == Capitalize(words[k])
  {
    if words == [] then [] else [Capitalize(words[0])] + CapitalizeAll(words[1..])
  }

  /** How a character is shown: an underscore as a space, a piece's first character in upper case. */
  function Shown(c: char, startsPiece: bool): char {
    if c == '_' then ' ' else if startsPiece then Upper(c) else c
  }

  /**
   * The character shown at position `i` of a formatted name: a space for an
   * underscore, the upper case of the first character of each piece, and
   * every other character unchanged.
   */
  function DisplayChar(symptom: string, i: nat): char
    requires i < |symptom|
  {
    Shown(symptom[i], i == 0 || symptom[i - 1] == '_')
  }

  /** `formatSymptomName`: split on `_`, capitalize each piece, join with spaces. */
  function FormatSymptomName(symptom: string): (r: string)
    ensures |r| == |symptom|
    ensures forall i :: 0 <= i < |r| ==> r[i] == DisplayChar(symptom, i)
  {
    FormatIsScan(symptom);
    forall i | 0 <= i < |symptom| ensures Scan(symptom, true)[i] == DisplayChar(symptom, i) {
      ScanAt(symptom, true, i);
    }
    Join(CapitalizeAll(Split(symptom, '_')), " ")
  }

  /**
   * The formatter read left to right: `atStart` says whether the next
   * character begins a piece.
   */
  function Scan(s: string, atStart: bool): (r: string)
    ensures |r| == |s|
  {
    if s == [] then [] else [Shown(s[0], atStart)] + Scan(s[1..], s[0] == '_')
  }

  lemma {:induction false} ScanAt(s: string, atStart: bool, i: nat)
    requires i < |s|
    ensures Scan(s, atStart)[i] == Shown(s[i], if i == 0 then atStart else s[i - 1] == '_')
  {
    if i > 0 {
      ScanAt(s[1..], s[0] == '_', i - 1);
      assert s[1..][i - 1] == s[i];
      if i > 1 { assert s[1..][i - 2] == s[i - 1]; }
    }
  }

  /** Joining with the first piece left as it is: the scan of a name whose head starts no piece. */
  function JoinRest(pieces: seq<string>): string
    requires pieces != []
  {
    Join([pieces[0]] + CapitalizeAll(pieces[1..]), " ")
  }

  lemma JoinCons(x: char, p: string, ps: seq<string>, sep: string)
    ensures Join([[x] + p] + ps, sep) == [x] + Join([p] + ps, sep)
  {
    if ps != [] {
      assert ([[x] + p] + ps)[1..] == ps;
      assert ([p] + ps)[1..] == ps;
    }
  }

  lemma JoinEmptyHead(ps: seq<string>, sep: string)
    requires ps != []
    ensures Join([[]] + ps, sep) == sep + Join(ps, sep)
  {
    assert ([[]] + ps)[1..] == ps;
  }

  lemma CapitalizeAllCons(w: string, ws: seq<string>)
    ensures CapitalizeAll([w] + ws) == [Capitalize(w)] + CapitalizeAll(ws)
  {
    assert ([w] + ws)[1..] == ws;
  }

  /** The split-capitalize-join pipeline equals the left-to-right scan. */
  lemma {:induction false} FormatIsScan(s: string)
    ensures Join(CapitalizeAll(Split(s, '_')), " ") == Scan(s, true)
    ensures JoinRest(Split(s, '_')) == Scan(s, false)
  {
    if s != [] {
      FormatIsScan(s[1..]);
      if s[0] == '_' {
        FormatIsScanSeparator(s);
      } else {
        FormatIsScanLetter(s);
      }
    }
  }

  lemma FormatIsScanSeparator(s: string)
    requires s != [] && s[0] == '_'
    requires Join(CapitalizeAll(Split(s[1..], '_')), " ") == Scan(s[1..], true)
    ensures Join(CapitalizeAll(Split(s, '_')), " ") == Scan(s, true)
    ensures JoinRest(Split(s, '_')) == Scan(s, false)
  {
    var rest := Split(s[1..], '_');
    var caps := CapitalizeAll(rest);
    assert Split(s, '_') == [[]] + rest;
    CapitalizeAllCons([], rest);
    JoinEmptyHead(caps, " ");
    assert ([[]] + rest)[1..] == rest;
  }

  lemma FormatIsScanLetter(s: string)
    requires s != [] && s[0] != '_'
    requires JoinRest(Split(s[1..], '_')) == Scan(s[1..], false)
    ensures Join(CapitalizeAll(Split(s, '_')), " ") == Scan(s, true)
    ensures JoinRest(Split(s, '_')) == Scan(s, false)
  {
    var rest := Split(s[1..], '_');
    var first := [s[0]] + rest[0];
    var tailCaps := CapitalizeAll(rest[1..]);
    assert Split(s, '_') == [first] + rest[1..];
    CapitalizeAllCons(first, rest[1..]);
    assert Capitalize(first) == [Upper(s[0])] + rest[0];
    JoinCons(Upper(s[0]), rest[0], tailCaps, " ");
    JoinCons(s[0], rest[0], tailCaps, " ");
    assert ([first] + rest[1..])[1..] == rest[1..];
  }

  /** Joining the pieces back with the separator restores the input. */
  lemma {:induction false} SplitJoin(s: string, sep: char)
    ensures Join(Split(s, sep), [sep]) == s
  {
    if s != [] {
      var rest := Split(s[1..], sep);
      SplitJoin(s[1..], sep);
      if s[0] == sep {
        assert ([[]] + rest)[1..] == rest;
      } else {
        JoinCons(s[0], rest[0], rest[1..], [sep]);
        assert rest == [rest[0]] + rest[1..];
      }
    }
  }

  /** Every underscore becomes a space, and the input's own spaces stay: nothing else is a space. */
  lemma FormatSpaces(symptom: string)
    ensures Count(FormatSymptomName(symptom), ' ') == Count(symptom, '_') + Count(symptom, ' ')
  {
    FormatIsScan(symptom);
    ScanSpaces(symptom, true);
  }

  lemma {:induction false} ScanSpaces(s: string, atStart: bool)
    ensures Count(Scan(s, atStart), ' ') == Count(s, '_') + Count(s, ' ')
  {
    if s != [] {
      ScanSpaces(s[1..], s[0] == '_');
      assert Scan(s, atStart)[1..] == Scan(s[1..], s[0] == '_');
    }
  }

  /** A name without underscores is one piece: only its first character changes. */
  lemma FormatSinglePiece(symptom: string)
    requires '_' !in symptom
    ensures FormatSymptomName(symptom) == Capitalize(symptom)
  {
  }

  /** `getRiskClass`: above 75 high, above 50 moderate, otherwise low. */
  function RiskClass(confidence: real): (c: string)
    ensures c in {"risk-high", "risk-moderate", "risk-low"}
  {
    if confidence > 75.0 then "risk-high"
    else if confidence > 50.0 then "risk-moderate"
    else "risk-low"
  }

  /** `getRiskLevel`: the same thresholds, as text. */
  function RiskLevel(confidence: real): (level: string)
    ensures level in {"🔴 High Risk", "🟡 Moderate Risk", "🟢 Low Risk"}
  {
    if confidence > 75.0 then "🔴 High Risk"
    else if confidence > 50.0 then "🟡 Moderate Risk"
    else "🟢 Low Risk"
  }

  /** `getMessageClass`: `danger` for exactly `Diabetes`, `success` for anything else. */
  function MessageClass(prediction: string): (c: string)
    ensures c == "danger" || c == "success"
    ensures c == "danger" <==> prediction == "Diabetes"
  {
    if prediction == "Diabetes" then "danger" else "success"
  }

  /** The three risk classes, with 75 and 50 falling to the lower class. */
  lemma RiskClassTiers(confidence: real)
    ensures RiskClass(confidence) == "risk-high" <==> confidence > 75.0
    ensures RiskClass(confidence) == "risk-moderate" <==> 50.0 < confidence <= 75.0
    ensures RiskClass(confidence) == "risk-low" <==> confidence <= 50.0
  {
  }

  /** The risk level and the risk class always name the same tier. */
  lemma RiskLevelMatchesClass(confidence: real)
    ensures RiskLevel(confidence) == "🔴 High Risk" <==> RiskClass(confidence) == "risk-high"
    ensures RiskLevel(confidence) == "🟡 Moderate Risk" <==> RiskClass(confidence) == "risk-moderate"
    ensures RiskLevel(confidence) == "🟢 Low Risk" <==> RiskClass(confidence) == "risk-low"
  {
  }

  /** The message class of a server response is `danger` exactly when the class was 1. */
  lemma MessageClassOfPrediction(prediction: int)
    ensures MessageClass(Predictor.PredictionLabel(prediction)) == "danger" <==> prediction == 1
    ensures MessageClass("Not Diabetes") == "success"
    ensures MessageClass("Diabetes ") == "success" && MessageClass("diabetes") == "success"
  {
  }

  /** The client's thresholds (75/50) are not the server's (80/60): a confidence of 78 is a high-risk class beside a moderate-risk message. */
  lemma ThresholdsDiffer()
    ensures RiskClass(78.0) == "risk-high" && Predictor.HealthMessage(1, 78.0) == Predictor.ModerateRisk
  {
  }
}
