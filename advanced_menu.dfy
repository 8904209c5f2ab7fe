/** advanced_menu.py: the emotional-tone rules. A goal is classified by keywords, personas'
    tones are weighed into a score, the score predicts the project's outcome, and an
    improvement pass rewrites the tones that do not help; the chat log lists each persona. */
module AdvancedMenu {
  import opened Text
  import opened Boundary

  /** `fetch_emotional_tones()` */
  const Tones := ["focused", "inspired", "excited", "determined", "collaborative",
                  "urgent", "motivated", "ambitious", "curious", "reflective",
                  "frustrated", "anxious", "overwhelmed", "apprehensive",
                  "disappointed", "elated", "proud", "happy", "sad", "angry",
                  "afraid", "surprised", "neutral"]

  /** A keyword table, in the insertion order its dict iterates in. */
  type ToneTable = seq<(string, string)>

  const ToneMap: ToneTable := [
    ("efficiency", "focused"), ("creativity", "inspired"), ("innovation", "excited"),
    ("problem-solving", "determined"), ("teamwork", "collaborative"), ("deadline", "urgent"),
    ("challenge", "motivated"), ("growth", "ambitious"), ("learning", "curious"),
    ("improvement", "reflective")]

  const ComplexToneMap: ToneTable := [
    ("conflict", "frustrated"), ("uncertainty", "anxious"), ("pressure", "overwhelmed"),
    ("change", "apprehensive"), ("failure", "disappointed"), ("success", "elated"),
    ("achievement", "proud")]

  const NonComplexToneMap: ToneTable := [
    ("happiness", "happy"), ("sadness", "sad"), ("anger", "angry"), ("fear", "afraid"),
    ("surprise", "surprised")]

  /** The index of the first entry whose keyword occurs in `goal`, or `|table|`. */
  function FirstMatch(goal: string, table: ToneTable, i: nat): (k: nat)
    requires i <= |table|
    ensures i <= k <= |table|
    ensures forall j :: i <= j < k ==> !Contains(goal, table[j].0)
    ensures k < |table| ==> Contains(goal, table[k].0)
    decreases |table| - i
  {
    if i == |table| then i
    else if Contains(goal, table[i].0) then i
    else FirstMatch(goal, table, i + 1)
  }

  /** The tone of the first matching keyword of one table. */
  function TableTone(goal: string, table: ToneTable): Option<string> {
    var k := FirstMatch(goal, table, 0);
    if k < |table| then Some(table[k].1) else None
  }

  /** `generate_emotional_tone(goal)` */
  function GenerateEmotionalTone(goal: string): string {
    LoweredTone(Lower(goal))
  }

  /** The three tables tried in turn on the lower-cased goal `g`. */
  function LoweredTone(g: string): string {
    match TableTone(g, ToneMap)
    case Some(t) => t
    case None =>
      match TableTone(g, ComplexToneMap)
      case Some(t) => t
      case None =>
        match TableTone(g, NonComplexToneMap)
        case Some(t) => t
        case None => "neutral"
  }

  /** `t` is the tone of the first entry, in table order, whose keyword occurs in `g`. */
  predicate FirstTone(g: string, table: ToneTable, t: string) {
    exists k :: 0 <= k < |table| && Contains(g, table[k].0)
                && (forall j :: 0 <= j < k ==> !Contains(g, table[j].0)) && t == table[k].1
  }

  /** No keyword of the table occurs in `g`. */
  predicate NoKeyword(g: string, table: ToneTable) {
    forall j :: 0 <= j < |table| ==> !Contains(g, table[j].0)
  }

  /** One table's lookup finds the first matching keyword's tone, or nothing when no
      keyword occurs. */
  lemma TableToneCases(g: string, table: ToneTable)
    ensures TableTone(g, table).Some? ==> FirstTone(g, table, TableTone(g, table).value)
    ensures TableTone(g, table).None? <==> NoKeyword(g, table)
  {
    var k := FirstMatch(g, table, 0);
    if k < |table| {
      assert !NoKeyword(g, table) by { assert Contains(g, table[k].0); }
    }
  }

  /** The tone found is the one of the first keyword, in listed order, that occurs in the
      lower-cased goal: no earlier keyword of the same table, and no keyword of an earlier
      table, occurs in it; "neutral" means no keyword occurs at all. */
  lemma ToneIsFirstKeyword(goal: string)
    ensures var g := Lower(goal);
            var t := GenerateEmotionalTone(goal);
            FirstTone(g, ToneMap, t)
            || (NoKeyword(g, ToneMap)
                && (FirstTone(g, ComplexToneMap, t)
                    || (NoKeyword(g, ComplexToneMap)
                        && (FirstTone(g, NonComplexToneMap, t)
                            || (NoKeyword(g, NonComplexToneMap) && t == "neutral")))))
  {
    var g := Lower(goal);
    TableToneCases(g, ToneMap);
    TableToneCases(g, ComplexToneMap);
    TableToneCases(g, NonComplexToneMap);
  }

  /** Every tone of the three tables is one of the listed tones. */
  lemma TablesListed()
    ensures forall k :: 0 <= k < |ToneMap| ==> ToneMap[k].1 in Tones
    ensures forall k :: 0 <= k < |ComplexToneMap| ==> ComplexToneMap[k].1 in Tones
    ensures forall k :: 0 <= k < |NonComplexToneMap| ==> NonComplexToneMap[k].1 in Tones
  {
    forall k | 0 <= k < |ToneMap| ensures ToneMap[k].1 in Tones {
      assert ToneMap[k].1 == Tones[k];
    }
    forall k | 0 <= k < |ComplexToneMap| ensures ComplexToneMap[k].1 in Tones {
      assert ComplexToneMap[k].1 == Tones[10 + k];
    }
    forall k | 0 <= k < |NonComplexToneMap| ensures NonComplexToneMap[k].1 in Tones {
      assert NonComplexToneMap[k].1 == Tones[17 + k];
    }
  }

  /** The tone is always one of `fetch_emotional_tones()`. */
  lemma ToneListed(goal: string)
    ensures GenerateEmotionalTone(goal) in Tones
  {
    TablesListed();
    assert Tones[22] == "neutral";
  }

  lemma LowerIdempotent(s: string)
    ensures Lower(Lower(s)) == Lower(s)
  {
    forall i | 0 <= i < |s| ensures LowerChar(LowerChar(s[i])) == LowerChar(s[i]) {
    }
  }

  /** Matching ignores case: a goal and its lower-cased form get the same tone. */
  lemma ToneIgnoresCase(goal: string)
    ensures GenerateEmotionalTone(Lower(goal)) == GenerateEmotionalTone(goal)
  {
    LowerIdempotent(goal);
  }

  // ---------------------------------------------------------------------------------
  // Score and prediction

  const ToneWeights: map<string, int> := map[
    "focused" := 10, "inspired" := 9, "excited" := 8, "determined" := 7, "collaborative" := 6,
    "urgent" := 5, "motivated" := 4, "ambitious" := 3, "curious" := 2, "reflective" := 1,
    "frustrated" := -1, "anxious" := -2, "overwhelmed" := -3, "apprehensive" := -4,
    "disappointed" := -5, "elated" := 10, "proud" := 9, "happy" := 8, "sad" := -6, "angry" := -7,
    "afraid" := -8, "surprised" := 0, "neutral" := 0]

  /** `tone_weights.get(persona.get("emotional_tone", "neutral"), 0)` */
  function PersonaWeight(p: Dict): int {
    var tone := Get(p, "emotional_tone", "neutral");
    if tone in ToneWeights then ToneWeights[tone] else 0
  }

  /** `calculate_emotional_tone_score(personas)` */
  function Score(ps: seq<Dict>): int {
    if ps == [] then 0 else PersonaWeight(ps[0]) + Score(ps[1..])
  }

  lemma WeightBounds(p: Dict)
    ensures -8 <= PersonaWeight(p) <= 10
  {
  }

  /** For n personas the score lies between -8n and 10n. */
  lemma {:induction false} ScoreBounds(ps: seq<Dict>)
    ensures -8 * |ps| <= Score(ps) <= 10 * |ps|
  {
    if ps != [] {
      WeightBounds(ps[0]);
      ScoreBounds(ps[1..]);
    }
  }

  /** `predict_project_success(score)` */
  function PredictProjectSuccess(score: int): string {
    if score > 50 then "High chance of success"
    else if score > 20 then "Moderate chance of success"
    else if score > 0 then "Low chance of success"
    else "High risk of failure"
  }

  /** The four predictions ordered from worst to best. */
  function PredictionRank(prediction: string): nat {
    if prediction == "High risk of failure" then 0
    else if prediction == "Low chance of success" then 1
    else if prediction == "Moderate chance of success" then 2
    else 3
  }

  /** A higher score never predicts a worse outcome. */
  lemma PredictionMonotone(a: int, b: int)
    requires a <= b
    ensures PredictionRank(PredictProjectSuccess(a)) <= PredictionRank(PredictProjectSuccess(b))
  {
  }

  /** The four bands: above 50, 21 to 50, 1 to 20, and 0 or less. */
  lemma PredictionBands(score: int)
    ensures PredictionRank(PredictProjectSuccess(score)) ==
              if score > 50 then 3 else if score > 20 then 2 else if score > 0 then 1 else 0
  {
  }

  // ---------------------------------------------------------------------------------
  // improve_emotional_tone

  const PositiveTones := ["focused", "inspired", "excited", "determined", "collaborative",
                          "urgent", "motivated", "ambitious", "curious", "reflective",
                          "elated", "proud", "happy"]

  /** One persona after the pass: a positive tone stays, anything else becomes "motivated". */
  function Improved(p: Dict): Dict {
    if "emotional_tone" in p && p["emotional_tone"] in PositiveTones then p
    else p["emotional_tone" := "motivated"]
  }

  function ImprovedAll(ps: seq<Dict>): (r: seq<Dict>)
    ensures |r| == |ps| && forall i :: 0 <= i < |ps| ==> r[i] == Improved(ps[i])
  {
    seq(|ps|, i requires 0 <= i < |ps| => Improved(ps[i]))
  }

  /** `improve_emotional_tone(personas)`: rewrites the dicts of the list in place and
      returns the same list. */
  method ImproveEmotionalTone(personas: array<Dict>) returns (r: array<Dict>)
    modifies personas
    ensures r == personas
    ensures personas[..] == ImprovedAll(old(personas[..]))
  {
    var i := 0;
    while i < personas.Length
      invariant 0 <= i <= personas.Length
      invariant forall j :: 0 <= j < i ==> personas[j] == Improved(old(personas[j]))
      invariant forall j :: i <= j < personas.Length ==> personas[j] == old(personas[j])
    {
      var p := personas[i];
      if !("emotional_tone" in p && p["emotional_tone"] in PositiveTones) {
        personas[i] := p["emotional_tone" := "motivated"];
      }
      i := i + 1;
    }
    return personas;
  }

  /** Only the tone changes, a positive tone is kept, and a second pass changes nothing. */
  lemma ImprovedEffect(p: Dict)
    ensures var q := Improved(p);
            "emotional_tone" in q && q["emotional_tone"] in PositiveTones
            && q.Keys == p.Keys + {"emotional_tone"}
            && (forall k :: k in p && k != "emotional_tone" ==> q[k] == p[k])
            && ("emotional_tone" in p && p["emotional_tone"] in PositiveTones ==> q == p)
            && Improved(q) == q
  {
    assert "motivated" == PositiveTones[6];
  }

  /** Every positive tone weighs at least 1; any other tone, missing or unknown, at most 0. */
  lemma WeightSign(p: Dict)
    ensures "emotional_tone" in p && p["emotional_tone"] in PositiveTones ==> PersonaWeight(p) >= 1
    ensures !("emotional_tone" in p && p["emotional_tone"] in PositiveTones) ==> PersonaWeight(p) <= 0
  {
  }

  lemma ImprovedWeight(p: Dict)
    ensures PersonaWeight(Improved(p)) >= 1
    ensures PersonaWeight(Improved(p)) >= PersonaWeight(p)
  {
    WeightSign(p);
    ImprovedEffect(p);
    WeightSign(Improved(p));
  }

  /** After the pass the score never went down and is at least the number of personas. */
  lemma {:induction false} ImprovedScore(ps: seq<Dict>)
    ensures Score(ImprovedAll(ps)) >= Score(ps)
    ensures Score(ImprovedAll(ps)) >= |ps|
  {
    if ps != [] {
      ImprovedWeight(ps[0]);
      assert ImprovedAll(ps)[1..] == ImprovedAll(ps[1..]);
      ImprovedScore(ps[1..]);
    }
  }

  /** So an improved, non-empty list never predicts a high risk of failure. */
  lemma ImprovedNeverFails(ps: seq<Dict>)
    requires ps != []
    ensures PredictProjectSuccess(Score(ImprovedAll(ps))) != "High risk of failure"
  {
    ImprovedScore(ps);
  }

  // ---------------------------------------------------------------------------------
  // autochat

  function ChatMessage(p: Dict): string
    requires "name" in p && "emotional_tone" in p && "goals" in p
  {
    p["name"] + " (" + p["emotional_tone"] + "): " + p["goals"]
  }

  /** The key whose lookup raises while formatting a persona's message. */
  function ChatMissing(p: Dict): (r: Option<string>)
    ensures r.None? <==> "name" in p && "emotional_tone" in p && "goals" in p
  {
    if "name" !in p then Some("name")
    else if "emotional_tone" !in p then Some("emotional_tone")
    else if "goals" !in p then Some("goals")
    else None
  }

  /** The number of personas whose message can be formatted before the first that cannot. */
  function Chattable(ps: seq<Dict>): (k: nat)
    ensures k <= |ps|
    ensures forall i :: 0 <= i < k ==> ChatMissing(ps[i]).None?
    ensures k < |ps| ==> ChatMissing(ps[k]).Some?
  {
    if ps == [] || ChatMissing(ps[0]).Some? then 0
    else
      var k := Chattable(ps[1..]);
      assert forall i :: 1 <= i < |ps| ==> ps[i] == ps[1..][i - 1];
      1 + k
  }

  /** The part of `st.session_state` the advanced menu writes. */
  class ChatSession {
    var chatLog: seq<string>

    constructor ()
      ensures chatLog == []
    {
      chatLog := [];
    }

    /** `autochat(personas)`: resets the log, then appends one "name (tone): goals" entry per
        persona, in order, up to the first persona that lacks one of those keys. */
    method Autochat(ps: seq<Dict>) returns (r: Result<()>)
      modifies this
      ensures var k := Chattable(ps);
              (r.Ok? <==> k == |ps|)
              && (r.Err? ==> r.error == KeyError(ChatMissing(ps[k]).value))
              && |chatLog| == k
              && forall i :: 0 <= i < k ==> chatLog[i] == ChatMessage(ps[i])
    {
      chatLog := [];
      var i := 0;
      while i < |ps|
        invariant 0 <= i <= Chattable(ps)
        invariant |chatLog| == i && forall j :: 0 <= j < i ==> chatLog[j] == ChatMessage(ps[j])
      {
        var missing := ChatMissing(ps[i]);
        if missing.Some? {
          return Err(KeyError(missing.value));
        }
        chatLog := chatLog + [ChatMessage(ps[i])];
        i := i + 1;
      }
      return Ok(());
    }
  }
}
