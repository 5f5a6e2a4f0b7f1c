/**
 * The session state machine of the Inner Council page (app.py:398-594).
 *
 * Streamlit re-runs the page script on every interaction; each run reads the
 * chat input (absent, or the text the user just sent) and performs exactly
 * one step of the stage machine INIT -> INVESTIGATE -> ROUND_TABLE -> VERDICT
 * -> CONSULT. `Session` holds the `st.session_state` fields and updates them
 * in place, one method per stage; each method is proved against a pure step
 * function on a `Snapshot` of those fields, and the lemmas here and in
 * `CouncilProofs` state what those step functions promise.
 */
module Council {
  import opened Wrappers
  import opened Text
  import opened Chat

  datatype Stage = Init | Investigate | RoundTable | Verdict | Consult

  /** Position of a stage on the one path the session follows. */
  function Rank(stage: Stage): nat {
    match stage
    case Init => 0
    case Investigate => 1
    case RoundTable => 2
    case Verdict => 3
    case Consult => 4
  }

  /** The interrogation floor `MIN_ROUNDS`. */
  const MinRounds: nat := 3

  /** The order in which the council speaks. */
  const Order: seq<Faction> := [Rational, Emotional, Conservative, Adventure]

  /** Default of the profile text field. */
  const DefaultMbti := "INFP"

  /** The completion signal is detected as a bare substring... */
  const EnoughWord := "ENOUGH"
  /** ...but only its bracketed form is removed from a continuing question. */
  const EnoughTag := "\U{3010}ENOUGH\U{3011}"

  // ---------------------------------------------------------------------------
  // `faction_opinions`: an insertion-ordered dictionary from faction to text.

  datatype Entry = Entry(faction: Faction, text: string)

  /** The dictionary's keys, in insertion order. */
  function Keys(d: seq<Entry>): (ks: seq<Faction>)
    ensures |ks| == |d|
    ensures forall i {:trigger ks[i]} :: 0 <= i < |d| ==> ks[i] == d[i].faction
  {
    if d == [] then [] else [d[0].faction] + Keys(d[1..])
  }

  /** Keys of a concatenation. */
  lemma KeysAppend(a: seq<Entry>, b: seq<Entry>)
    ensures Keys(a + b) == Keys(a) + Keys(b)
  {
    var l, r := Keys(a + b), Keys(a) + Keys(b);
    forall i | 0 <= i < |l| ensures l[i] == r[i] {
      if i < |a| { assert (a + b)[i] == a[i]; } else { assert (a + b)[i] == b[i - |a|]; }
    }
  }

  /**
   * `d[f] = v`: a new key is appended at the end; an existing key keeps its
   * place and gets the new value.
   */
  function Put(d: seq<Entry>, f: Faction, v: string): (r: seq<Entry>)
    ensures f !in Keys(d) ==> r == d + [Entry(f, v)]
    ensures |r| == if f in Keys(d) then |d| else |d| + 1
  {
    if d == [] then [Entry(f, v)]
    else if d[0].faction == f then [Entry(f, v)] + d[1..]
    else
      assert d == [d[0]] + d[1..];
      [d[0]] + Put(d[1..], f, v)
  }

  /** Where the dictionary holds `f`: the first entry with that key. */
  function KeyIndex(d: seq<Entry>, f: Faction): (i: nat)
    requires f in Keys(d)
    ensures i < |d| && d[i].faction == f
    ensures forall j :: 0 <= j < i ==> d[j].faction != f
  {
    if d[0].faction == f then 0
    else
      assert Keys(d) == [d[0].faction] + Keys(d[1..]);
      1 + KeyIndex(d[1..], f)
  }

  /** Assigning to the first entry's key replaces that entry and keeps the rest. */
  lemma PutHead(d: seq<Entry>, f: Faction, v: string, j: nat)
    requires j < |d| && d[0].faction == f
    ensures Put(d, f, v)[j] == if j == 0 then Entry(f, v) else d[j]
  {
    if j > 0 {
      assert Put(d, f, v)[j] == d[1..][j - 1];
    }
  }

  /** Assigning to any other key keeps the first entry and assigns in the rest. */
  lemma PutPast(d: seq<Entry>, f: Faction, v: string, j: nat)
    requires 0 < j < |d| && d[0].faction != f
    ensures Put(d, f, v)[0] == d[0]
    ensures Put(d, f, v)[j] == Put(d[1..], f, v)[j - 1]
  {
  }

  /** One entry of an assignment to a present key: the new value at that key's place, the old entry elsewhere. */
  lemma {:induction false} PutAt(d: seq<Entry>, f: Faction, v: string, i: nat, j: nat)
    requires i < |d| && d[i].faction == f && forall k :: 0 <= k < i ==> d[k].faction != f
    requires j < |d|
    ensures Put(d, f, v)[j] == if j == i then Entry(f, v) else d[j]
  {
    if i == 0 {
      PutHead(d, f, v, j);
    } else if j == 0 {
      PutPast(d, f, v, 1);
    } else {
      assert d[1..][i - 1] == d[i];
      PutAt(d[1..], f, v, i - 1, j - 1);
      PutPast(d, f, v, j);
    }
  }

  /**
   * Assigning to a key that is present stores the new value at that key's
   * place and leaves every other entry as it was.
   */
  lemma PutExisting(d: seq<Entry>, f: Faction, v: string)
    requires f in Keys(d)
    ensures |Put(d, f, v)| == |d|
    ensures forall j :: 0 <= j < |d| ==> Put(d, f, v)[j] == if j == KeyIndex(d, f) then Entry(f, v) else d[j]
  {
    forall j | 0 <= j < |d|
      ensures Put(d, f, v)[j] == if j == KeyIndex(d, f) then Entry(f, v) else d[j]
    {
      PutAt(d, f, v, KeyIndex(d, f), j);
    }
  }

  /** Assigning to a key that is present leaves the keys, and their order, as they were. */
  lemma PutKeepsKeys(d: seq<Entry>, f: Faction, v: string)
    requires f in Keys(d)
    ensures Keys(Put(d, f, v)) == Keys(d)
  {
    var r := Put(d, f, v);
    PutExisting(d, f, v);
    forall j | 0 <= j < |d|
      ensures Keys(r)[j] == Keys(d)[j]
    {
      assert r[j].faction == d[j].faction;
    }
  }

  /** A faction's seat at the table: its index in `Order`. */
  function Seat(f: Faction): (i: nat)
    ensures i < |Order| && Order[i] == f
  {
    match f
    case Rational => 0
    case Emotional => 1
    case Conservative => 2
    case Adventure => 3
  }

  /** The factions of `Order[from..]` before the first one missing from `keys` are all present. */
  function FirstMissingFrom(keys: seq<Faction>, from: nat): (j: nat)
    requires from <= |Order|
    ensures from <= j <= |Order|
    ensures forall i :: from <= i < j ==> Order[i] in keys
    ensures j < |Order| ==> Order[j] !in keys
    decreases |Order| - from
  {
    if from == |Order| || Order[from] !in keys then from
    else FirstMissingFrom(keys, from + 1)
  }

  /**
   * The faction due to speak next: the first of `Order` without an opinion,
   * or none when all four have spoken.
   */
  function NextSpeaker(d: seq<Entry>): (r: Option<Faction>)
    ensures r.None? <==> forall i :: 0 <= i < |Order| ==> Order[i] in Keys(d)
    ensures r.Some? ==> r.value !in Keys(d)
    ensures r.Some? ==> forall g :: Seat(g) < Seat(r.value) ==> g in Keys(d)
  {
    var j := FirstMissingFrom(Keys(d), 0);
    if j < |Order| then
      assert Seat(Order[j]) == j;
      assert forall g :: Seat(g) < j ==> Order[Seat(g)] in Keys(d);
      Some(Order[j])
    else None
  }

  /** The `for faction in order: ... break` search of ROUND_TABLE (app.py:520-525). */
  method FindNextSpeaker(opinions: seq<Entry>) returns (next: Option<Faction>)
    ensures next == NextSpeaker(opinions)
  {
    next := None;
    for i := 0 to |Order|
      invariant forall k :: 0 <= k < i ==> Order[k] in Keys(opinions)
    {
      if Order[i] !in Keys(opinions) {
        next := Some(Order[i]);
        break;
      }
    }
  }

  // ---------------------------------------------------------------------------
  // Prompts. Each system prompt is kept as what it embeds; `Render` gives its
  // text, in English, whose wording carries no meaning for the state machine.

  datatype Prompt =
    | FirstQuestion                                      // app.py:480
    | Probe(round: nat)                                  // app.py:498, below the floor
    | EnoughCheck                                        // app.py:500, at or above the floor
    | Summarise                                          // app.py:506
    | Persona(faction: Faction)                          // FACTIONS[...]["prompt"], app.py:49-66
    | Arbitrate(mbti: string, summary: string, debate: string)  // app.py:549-578
    | FollowUp(previous: string, question: string)       // app.py:590-591

  function FactionKey(f: Faction): string {
    match f
    case Rational => "rational"
    case Emotional => "emotional"
    case Conservative => "conservative"
    case Adventure => "adventure"
  }

  /** The text of a system prompt. */
  function Render(p: Prompt): string {
    match p
    case FirstQuestion => "This is round one. Ask the single most important follow-up question."
    case Probe(curr) => "Round " + Decimal(curr) + "/3. Do not finish. Check the missing dimensions and keep asking."
    case EnoughCheck => "Is the information sufficient? If so output " + EnoughTag + ", otherwise ask a follow-up."
    case Summarise => "Summarise the whole case in the third person."
    case Persona(Rational) => "You are a game theorist. Weigh only interests and sunk costs. Within 60 characters."
    case Persona(Emotional) => "You are a counsellor. Attend to feelings and grievances. Within 60 characters."
    case Persona(Conservative) => "You are a risk manager. Attend to safety, stopping losses, the status quo. Within 60 characters."
    case Persona(Adventure) => "You are a Nietzschean philosopher. Argue for breaking, rebuilding, conflict. Within 60 characters."
    case Arbitrate(mbti, summary, debate) =>
      "You are the ferryman. User: " + mbti + ".\n[Case]: " + summary + "\n[Four views]:\n" + debate
      + "\nArbitrate between the views and find the golden mean. No lists, no bracketed headings; "
      + "narrative prose tailored to " + mbti + ", ending with a message the user could send tonight."
    case FollowUp(previous, question) =>
      "Ferryman, briefly answer the follow-up: Previous verdict: " + previous + "\nNew question: " + question
  }

  /** The language model as the session sees it: `call_llm` after the prompt is rendered. */
  type Ask = (Prompt, seq<Msg>, bool) -> string

  /**
   * The page's `call_llm` over a given backend: without a client every answer
   * is the placeholder; with one, every answer is an error report or a reply
   * cleaned of its reasoning trace.
   */
  function Connect(llm: Backend): (ask: Ask)
    ensures llm.Offline? ==> forall p, history, elevated :: ask(p, history, elevated) == Placeholder
    ensures llm.Online? ==> forall p, history, elevated ::
      ErrorPrefix <= ask(p, history, elevated) || !Contains(ask(p, history, elevated), ThinkClose)
  {
    assert llm.Online? ==> forall p, history, elevated ::
      ErrorPrefix <= CallLlm(llm, Render(p), history, elevated) || !Contains(CallLlm(llm, Render(p), history, elevated), ThinkClose)
    by {
      forall p, history, elevated | llm.Online?
        ensures ErrorPrefix <= CallLlm(llm, Render(p), history, elevated) || !Contains(CallLlm(llm, Render(p), history, elevated), ThinkClose)
      {
        CallLlmShapes(llm, Render(p), history, elevated);
      }
    }
    (p, history, elevated) => CallLlm(llm, Render(p), history, elevated)
  }

  /** The system message that opens the interrogation: the complaint and the profile. */
  function SeedContent(complaint: string, mbti: string): string {
    "User's trouble: " + complaint + ". Personality: " + mbti
  }

  /** The prompt of an INVESTIGATE step with `curr` rounds asked (app.py:497-500). */
  function InvestigatePrompt(curr: nat): Prompt {
    if curr < MinRounds then Probe(curr) else EnoughCheck
  }

  const HandoffNotice := "(Information gathered; handing over to the council...)"

  /** The single user message each faction is asked. */
  function OpinionRequest(summary: string, mbti: string): string {
    "Case: " + summary + ". Personality: " + mbti + ". Give your core position."
  }

  /** `"\n".join(f"{k}: {v}" for k, v in faction_opinions.items())`. */
  function Debate(d: seq<Entry>): string {
    if d == [] then ""
    else if |d| == 1 then FactionKey(d[0].faction) + ": " + d[0].text
    else FactionKey(d[0].faction) + ": " + d[0].text + "\n" + Debate(d[1..])
  }

  // ---------------------------------------------------------------------------
  // The session state and its step functions.

  /** The `st.session_state` fields the state machine reads and writes. */
  datatype Snapshot = Snapshot(
    stage: Stage,
    history: seq<Msg>,
    round: nat,
    investigateHistory: seq<Msg>,
    caseSummary: string,
    opinions: seq<Entry>,
    userMbti: string)

  /** The defaults of app.py:398-404, applied at start and after a restart. */
  const Fresh := Snapshot(Init, [], 0, [], "", [], DefaultMbti)

  /** Python's `if user_input:` — no input and the empty string both count as nothing. */
  predicate Submitted(input: Option<string>) {
    input.Some? && input.value != ""
  }

  /** INIT (app.py:474-485): the complaint opens the interrogation with the first question. */
  function InitStep(s: Snapshot, input: Option<string>, llm: Ask): Snapshot {
    if !Submitted(input) then s
    else
      var seed := [Msg(System, SeedContent(input.value, s.userMbti))];
      var q1 := llm(FirstQuestion, seed, false);
      s.(history := s.history + [Msg(User, input.value)] + [Msg(Detective, q1)],
         investigateHistory := seed + [Msg(Assistant, q1)],
         round := 1,
         stage := Investigate)
  }

  /** The model's answer to an INVESTIGATE step, given the context with the user's answer appended. */
  function InvestigateReply(s: Snapshot, answer: string, llm: Ask): string {
    llm(InvestigatePrompt(s.round), s.investigateHistory + [Msg(User, answer)], false)
  }

  /** The step concludes the interrogation: the reply signals completion and the floor is reached. */
  predicate Concludes(s: Snapshot, answer: string, llm: Ask) {
    Contains(InvestigateReply(s, answer, llm), EnoughWord) && s.round >= MinRounds
  }

  /** The question shown when the interrogation continues. */
  function NextQuestion(s: Snapshot, answer: string, llm: Ask): string {
    Trim(RemoveAll(InvestigateReply(s, answer, llm), EnoughTag))
  }

  /** INVESTIGATE (app.py:488-515): one answer, then either the next question or the hand-off. */
  function InvestigateStep(s: Snapshot, input: Option<string>, llm: Ask): Snapshot {
    if !Submitted(input) then s
    else
      var answer := Msg(User, input.value);
      var context := s.investigateHistory + [answer];
      if Concludes(s, input.value, llm) then
        s.(history := s.history + [answer] + [Msg(Detective, HandoffNotice)],
           investigateHistory := context,
           caseSummary := llm(Summarise, context, false),
           stage := RoundTable)
      else
        var q := NextQuestion(s, input.value, llm);
        s.(history := s.history + [answer] + [Msg(Detective, q)],
           investigateHistory := context + [Msg(Assistant, q)],
           round := s.round + 1)
  }

  /** The opinion the faction `f` gives on the case. */
  function Opinion(s: Snapshot, f: Faction, llm: Ask): string {
    llm(Persona(f), [Msg(User, OpinionRequest(s.caseSummary, s.userMbti))], false)
  }

  /** ROUND_TABLE (app.py:518-539): the next faction speaks, or the stage moves on. */
  function RoundTableStep(s: Snapshot, llm: Ask): Snapshot {
    match NextSpeaker(s.opinions)
    case Some(f) =>
      var res := Opinion(s, f, llm);
      s.(history := s.history + [Msg(Speaker(f), res)], opinions := Put(s.opinions, f, res))
    case None => s.(stage := Verdict)
  }

  /** The ferryman's verdict, at elevated temperature and with no message history. */
  function VerdictText(s: Snapshot, llm: Ask): string {
    llm(Arbitrate(s.userMbti, s.caseSummary, Debate(s.opinions)), [], true)
  }

  /** VERDICT (app.py:542-583): one verdict, then CONSULT. */
  function VerdictStep(s: Snapshot, llm: Ask): Snapshot {
    s.(history := s.history + [Msg(Ferryman, VerdictText(s, llm))], stage := Consult)
  }

  /**
   * CONSULT (app.py:586-594): the follow-up is answered with `history[-1]` as
   * the "previous verdict", read after the question was appended.
   */
  function ConsultStep(s: Snapshot, input: Option<string>, llm: Ask): Snapshot {
    if !Submitted(input) then s
    else
      var h := s.history + [Msg(User, input.value)];
      var ctx := FollowUp(h[|h| - 1].content, input.value);
      s.(history := h + [Msg(Ferryman, llm(ctx, [], false))])
  }

  /** One page run: the stage's handler; ROUND_TABLE and VERDICT ignore the chat input. */
  function Next(s: Snapshot, input: Option<string>, llm: Ask): Snapshot {
    match s.stage
    case Init => InitStep(s, input, llm)
    case Investigate => InvestigateStep(s, input, llm)
    case RoundTable => RoundTableStep(s, llm)
    case Verdict => VerdictStep(s, llm)
    case Consult => ConsultStep(s, input, llm)
  }

  // ---------------------------------------------------------------------------
  // The session object.

  class Session {
    var stage: Stage
    var history: seq<Msg>
    var investigateRound: nat
    var investigateHistory: seq<Msg>
    var caseSummary: string
    var factionOpinions: seq<Entry>
    var userMbti: string

    function View(): Snapshot
      reads this
    {
      Snapshot(stage, history, investigateRound, investigateHistory, caseSummary, factionOpinions, userMbti)
    }

    /** A new session holds the defaults (app.py:398-404). */
    constructor ()
      ensures View() == Fresh
    {
      stage := Init;
      history := [];
      investigateRound := 0;
      investigateHistory := [];
      caseSummary := "";
      factionOpinions := [];
      userMbti := DefaultMbti;
    }

    /** The restart button: `st.session_state.clear()`, then the defaults again (app.py:463-465). */
    method Reset()
      modifies this
      ensures View() == Fresh
    {
      stage := Init;
      history := [];
      investigateRound := 0;
      investigateHistory := [];
      caseSummary := "";
      factionOpinions := [];
      userMbti := DefaultMbti;
    }

    /** The profile text field, bound to `user_mbti` (app.py:460). */
    method SetProfile(text: string)
      modifies this
      ensures View() == old(View()).(userMbti := text)
    {
      userMbti := text;
    }

    method StartCase(input: Option<string>, llm: Ask)
      requires stage == Init
      modifies this
      ensures View() == InitStep(old(View()), input, llm)
    {
      if Submitted(input) {
        history := history + [Msg(User, input.value)];
        investigateHistory := [Msg(System, SeedContent(input.value, userMbti))];
        var q1 := llm(FirstQuestion, investigateHistory, false);
        history := history + [Msg(Detective, q1)];
        investigateHistory := investigateHistory + [Msg(Assistant, q1)];
        investigateRound := 1;
        stage := Investigate;
      }
    }

    method Interrogate(input: Option<string>, llm: Ask)
      requires stage == Investigate
      modifies this
      ensures View() == InvestigateStep(old(View()), input, llm)
    {
      if Submitted(input) {
        ghost var s := View();
        history := history + [Msg(User, input.value)];
        investigateHistory := investigateHistory + [Msg(User, input.value)];
        var curr := investigateRound;
        var prompt := if curr < MinRounds then Probe(curr) else EnoughCheck;
        var resp := llm(prompt, investigateHistory, false);
        assert resp == InvestigateReply(s, input.value, llm);
        if Contains(resp, EnoughWord) && curr >= MinRounds {
          assert Concludes(s, input.value, llm);
          history := history + [Msg(Detective, HandoffNotice)];
          var summary := llm(Summarise, investigateHistory, false);
          caseSummary := summary;
          stage := RoundTable;
        } else {
          assert !Concludes(s, input.value, llm);
          var q := Trim(RemoveAll(resp, EnoughTag));
          assert q == NextQuestion(s, input.value, llm);
          history := history + [Msg(Detective, q)];
          investigateHistory := investigateHistory + [Msg(Assistant, q)];
          investigateRound := investigateRound + 1;
        }
      }
    }

    method HoldRoundTable(llm: Ask)
      requires stage == RoundTable
      modifies this
      ensures View() == RoundTableStep(old(View()), llm)
    {
      var next := FindNextSpeaker(factionOpinions);
      if next.Some? {
        var speaker := next.value;
        var prompt := OpinionRequest(caseSummary, userMbti);
        var res := llm(Persona(speaker), [Msg(User, prompt)], false);
        history := history + [Msg(Speaker(speaker), res)];
        factionOpinions := Put(factionOpinions, speaker, res);
      } else {
        stage := Verdict;
      }
    }

    method GiveVerdict(llm: Ask)
      requires stage == Verdict
      modifies this
      ensures View() == VerdictStep(old(View()), llm)
    {
      var debate := Debate(factionOpinions);
      var verdict := llm(Arbitrate(userMbti, caseSummary, debate), [], true);
      history := history + [Msg(Ferryman, verdict)];
      stage := Consult;
    }

    method AnswerFollowUp(input: Option<string>, llm: Ask)
      requires stage == Consult
      modifies this
      ensures View() == ConsultStep(old(View()), input, llm)
    {
      if Submitted(input) {
        history := history + [Msg(User, input.value)];
        var ctx := FollowUp(history[|history| - 1].content, input.value);
        var res := llm(ctx, [], false);
        history := history + [Msg(Ferryman, res)];
      }
    }

    /** One page run of the state machine. */
    method Step(input: Option<string>, llm: Ask)
      modifies this
      ensures View() == Next(old(View()), input, llm)
    {
      match stage
      case Init => StartCase(input, llm);
      case Investigate => Interrogate(input, llm);
      case RoundTable => HoldRoundTable(llm);
      case Verdict => GiveVerdict(llm);
      case Consult => AnswerFollowUp(input, llm);
    }
  }
}
