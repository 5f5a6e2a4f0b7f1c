/**
 * What the stage machine of `Council` promises over whole sessions: the
 * invariant every reachable session state keeps, the interrogation floor, the
 * order in which the council speaks, the monotone progress through the
 * stages, and what a session without a model service can and cannot reach.
 */
module CouncilProofs {
  import opened Wrappers
  import opened Text
  import opened Chat
  import opened Council

  // ---------------------------------------------------------------------------
  // Sessions as sequences of user actions.

  /**
   * What can happen between two states: the restart button, an edit of the
   * profile field, or a page run with the chat input it reads and the model
   * service `call_llm` talks to during that run.
   */
  datatype Event = Restart | Profile(text: string) | Page(input: Option<string>, llm: Backend)

  function Apply(s: Snapshot, e: Event): Snapshot {
    match e
    case Restart => Fresh
    case Profile(text) => s.(userMbti := text)
    case Page(input, llm) => Next(s, input, Connect(llm))
  }

  /** The state after the events `es`, in order. */
  function Run(s: Snapshot, es: seq<Event>): Snapshot
    decreases |es|
  {
    if es == [] then s else Run(Apply(s, es[0]), es[1..])
  }

  predicate NoRestart(es: seq<Event>) {
    forall i :: 0 <= i < |es| ==> !es[i].Restart?
  }

  predicate OnlyPages(es: seq<Event>) {
    forall i :: 0 <= i < |es| ==> es[i].Page?
  }

  /** Every page run of `es` finds no client: the API key was missing or unusable. */
  predicate AllOffline(es: seq<Event>) {
    forall i :: 0 <= i < |es| ==> es[i].Page? ==> es[i].llm.Offline?
  }

  // ---------------------------------------------------------------------------
  // What the transcript records.

  /** What the detective says in the transcript, in order: the questions, then the hand-off notice. */
  function DetectiveSays(h: seq<Msg>): seq<string> {
    if h == [] then []
    else DetectiveSays(h[..|h| - 1]) + (if h[|h| - 1].role == Detective then [h[|h| - 1].content] else [])
  }

  /** A faction's message as a dictionary entry. */
  function Said(m: Msg): seq<Entry> {
    if m.role.Speaker? then [Entry(m.role.faction, m.content)] else []
  }

  /** The council's messages in the transcript, as entries, in order. */
  function Voiced(h: seq<Msg>): seq<Entry> {
    if h == [] then [] else Voiced(h[..|h| - 1]) + Said(h[|h| - 1])
  }

  lemma RecordSnoc(h: seq<Msg>, m: Msg)
    ensures DetectiveSays(h + [m]) == DetectiveSays(h) + (if m.role == Detective then [m.content] else [])
    ensures Voiced(h + [m]) == Voiced(h) + Said(m)
  {
    assert (h + [m])[..|h|] == h;
  }

  // ---------------------------------------------------------------------------
  // The invariant of reachable states.

  /**
   * Every state a session can be in: the opinions hold a prefix of the
   * speaking order and are exactly what the council said in the transcript;
   * during the interrogation the detective has said `round` questions and its
   * context holds two messages per round; from the round table on the
   * detective said `round >= MinRounds` questions and then, last, the hand-off
   * notice, and the context also holds the final answer; from the verdict on
   * all four factions have spoken.
   */
  ghost predicate Inv(s: Snapshot) {
    && |s.opinions| <= |Order|
    && Keys(s.opinions) == Order[..|s.opinions|]
    && Voiced(s.history) == s.opinions
    && match s.stage
       case Init => s == Fresh.(userMbti := s.userMbti)
       case Investigate =>
         && 1 <= s.round && |DetectiveSays(s.history)| == s.round
         && |s.investigateHistory| == 2 * s.round
         && s.caseSummary == "" && s.opinions == []
       case RoundTable => Convened(s)
       case Verdict => Convened(s) && |s.opinions| == |Order|
       case Consult => Convened(s) && |s.opinions| == |Order|
  }

  /** The interrogation is over: at least `MinRounds` questions, then the hand-off notice. */
  ghost predicate Convened(s: Snapshot) {
    && MinRounds <= s.round
    && |DetectiveSays(s.history)| == s.round + 1
    && DetectiveSays(s.history)[s.round] == HandoffNotice
    && |s.investigateHistory| == 2 * s.round + 1
  }

  lemma FreshInv()
    ensures Inv(Fresh)
  {
    assert Order[..0] == [];
  }

  /** A faction's place in `Order` decides whether it is among the first `n`. */
  lemma OrderPrefix(n: nat, i: nat)
    requires n <= |Order| && i < |Order|
    ensures Order[i] in Order[..n] <==> i < n
  {
    if i < n {
      assert Order[..n][i] == Order[i];
    } else {
      forall j | 0 <= j < n
        ensures Order[..n][j] != Order[i]
      {
        assert Seat(Order[j]) == j && Seat(Order[i]) == i;
      }
    }
  }

  /**
   * When the opinions hold the first `n` factions of the order, the next to
   * speak is the one at position `n`; nobody is left once all four spoke.
   */
  lemma {:induction false} NextSpeakerFollowsOrder(d: seq<Entry>)
    requires |d| <= |Order| && Keys(d) == Order[..|d|]
    ensures |d| < |Order| ==> NextSpeaker(d) == Some(Order[|d|])
    ensures |d| == |Order| ==> NextSpeaker(d) == None
  {
    var n := |d|;
    var r := NextSpeaker(d);
    if n == |Order| {
      assert Order[..n] == Order;
      assert forall i :: 0 <= i < |Order| ==> Order[i] in Keys(d);
    } else {
      OrderPrefix(n, n);
      assert r.Some?;
      var f := r.value;
      OrderPrefix(n, Seat(f));
      assert Seat(Order[n]) == n && Order[n] !in Keys(d);
      assert Seat(f) == n;
    }
  }

  lemma KeysSnoc(d: seq<Entry>, e: Entry)
    ensures Keys(d + [e]) == Keys(d) + [e.faction]
  {
    KeysAppend(d, [e]);
  }

  lemma InvInit(s: Snapshot, input: Option<string>, llm: Ask)
    requires Inv(s) && s.stage == Init
    ensures Inv(Next(s, input, llm))
  {
    if Submitted(input) {
      var t := Next(s, input, llm);
      RecordSnoc([], Msg(User, input.value));
      RecordSnoc([Msg(User, input.value)], t.history[1]);
      assert t.history == [Msg(User, input.value)] + [t.history[1]];
    }
  }

  lemma InvInvestigate(s: Snapshot, input: Option<string>, llm: Ask)
    requires Inv(s) && s.stage == Investigate
    ensures Inv(Next(s, input, llm))
  {
    if Submitted(input) {
      if Concludes(s, input.value, llm) {
        InvHandOff(s, input.value, llm);
      } else {
        InvContinue(s, input.value, llm);
      }
    }
  }

  lemma InvContinue(s: Snapshot, answer: string, llm: Ask)
    requires Inv(s) && s.stage == Investigate && answer != "" && !Concludes(s, answer, llm)
    ensures Inv(Next(s, Some(answer), llm))
  {
    InvestigateContinues(s, answer, llm);
    InvAsked(s, answer, NextQuestion(s, answer, llm));
  }

  /** Whatever the next question says, recording it with the answer keeps the invariant. */
  lemma InvAsked(s: Snapshot, answer: string, q: string)
    requires Inv(s) && s.stage == Investigate
    ensures Inv(s.(history := s.history + [Msg(User, answer)] + [Msg(Detective, q)],
                   investigateHistory := s.investigateHistory + [Msg(User, answer)] + [Msg(Assistant, q)],
                   round := s.round + 1))
  {
    RecordSnoc(s.history, Msg(User, answer));
    RecordSnoc(s.history + [Msg(User, answer)], Msg(Detective, q));
  }

  lemma InvHandOff(s: Snapshot, answer: string, llm: Ask)
    requires Inv(s) && s.stage == Investigate && answer != "" && Concludes(s, answer, llm)
    ensures Inv(Next(s, Some(answer), llm))
  {
    InvestigateHandsOff(s, answer, llm);
    RecordSnoc(s.history, Msg(User, answer));
    RecordSnoc(s.history + [Msg(User, answer)], Msg(Detective, HandoffNotice));
  }

  /** One turn of the round table when `n < 4` factions have spoken: faction `n` adds its opinion. */
  lemma RoundTableSpeaks(s: Snapshot, llm: Ask)
    requires Inv(s) && s.stage == RoundTable && |s.opinions| < |Order|
    ensures var f := Order[|s.opinions|];
      var said := Opinion(s, f, llm);
      && Next(s, None, llm) == s.(history := s.history + [Msg(Speaker(f), said)], opinions := s.opinions + [Entry(f, said)])
      && Inv(Next(s, None, llm))
  {
    var n := |s.opinions|;
    var f := Order[n];
    NextSpeakerFollowsOrder(s.opinions);
    OrderPrefix(n, n);
    var said := Opinion(s, f, llm);
    assert Next(s, None, llm).opinions == s.opinions + [Entry(f, said)];
    InvSpoken(s, said);
  }

  /** Whatever the next faction in the order says, recording it in the transcript and the opinions keeps the invariant. */
  lemma InvSpoken(s: Snapshot, said: string)
    requires Inv(s) && s.stage == RoundTable && |s.opinions| < |Order|
    ensures var f := Order[|s.opinions|];
      Inv(s.(history := s.history + [Msg(Speaker(f), said)], opinions := s.opinions + [Entry(f, said)]))
  {
    var n := |s.opinions|;
    var f := Order[n];
    KeysSnoc(s.opinions, Entry(f, said));
    assert Order[..n + 1] == Order[..n] + [f];
    RecordSnoc(s.history, Msg(Speaker(f), said));
  }

  /** With all four opinions heard the round table moves to the verdict and changes nothing else. */
  lemma RoundTableAdjourns(s: Snapshot, input: Option<string>, llm: Ask)
    requires Inv(s) && s.stage == RoundTable && |s.opinions| == |Order|
    ensures Next(s, input, llm) == s.(stage := Verdict)
    ensures Inv(Next(s, input, llm))
  {
    NextSpeakerFollowsOrder(s.opinions);
  }

  lemma InvRoundTable(s: Snapshot, input: Option<string>, llm: Ask)
    requires Inv(s) && s.stage == RoundTable
    ensures Inv(Next(s, input, llm))
  {
    if |s.opinions| < |Order| {
      RoundTableSpeaks(s, llm);
      assert Next(s, input, llm) == Next(s, None, llm);
    } else {
      RoundTableAdjourns(s, input, llm);
    }
  }

  lemma InvVerdict(s: Snapshot, input: Option<string>, llm: Ask)
    requires Inv(s) && s.stage == Verdict
    ensures Inv(Next(s, input, llm))
  {
    RecordSnoc(s.history, Msg(Ferryman, VerdictText(s, llm)));
  }

  lemma InvConsult(s: Snapshot, input: Option<string>, llm: Ask)
    requires Inv(s) && s.stage == Consult
    ensures Inv(Next(s, input, llm))
  {
    if Submitted(input) {
      var t := Next(s, input, llm);
      var h := s.history + [Msg(User, input.value)];
      RecordSnoc(s.history, Msg(User, input.value));
      RecordSnoc(h, t.history[|t.history| - 1]);
      assert t.history == h + [t.history[|t.history| - 1]];
    }
  }

  /** Every page run keeps the invariant, whatever the input and whatever the model answers. */
  lemma InvNext(s: Snapshot, input: Option<string>, llm: Ask)
    requires Inv(s)
    ensures Inv(Next(s, input, llm))
  {
    match s.stage
    case Init => InvInit(s, input, llm);
    case Investigate => InvInvestigate(s, input, llm);
    case RoundTable => InvRoundTable(s, input, llm);
    case Verdict => InvVerdict(s, input, llm);
    case Consult => InvConsult(s, input, llm);
  }

  lemma {:induction false} RunKeepsInv(s: Snapshot, es: seq<Event>)
    requires Inv(s)
    ensures Inv(Run(s, es))
    decreases |es|
  {
    if es != [] {
      match es[0] {
        case Restart => FreshInv();
        case Profile(text) =>
        case Page(input, llm) => InvNext(s, input, Connect(llm));
      }
      RunKeepsInv(Apply(s, es[0]), es[1..]);
    }
  }

  /**
   * Whatever the user does and whatever the model answers, the council only
   * convenes after the detective asked at least `MinRounds` questions, and the
   * hand-off notice is the detective's last message; the council's opinions
   * are exactly its messages in the transcript, and the verdict and the
   * consultation only come once all four factions have spoken, in order.
   */
  lemma Reachable(es: seq<Event>)
    ensures Inv(Run(Fresh, es))
    ensures var t := Run(Fresh, es);
      Rank(t.stage) >= Rank(RoundTable) ==>
        && MinRounds <= t.round
        && |DetectiveSays(t.history)| == t.round + 1
        && DetectiveSays(t.history)[t.round] == HandoffNotice
    ensures var t := Run(Fresh, es);
      Rank(t.stage) >= Rank(Verdict) ==> Keys(t.opinions) == Order
    ensures Voiced(Run(Fresh, es).history) == Run(Fresh, es).opinions
  {
    FreshInv();
    RunKeepsInv(Fresh, es);
    var t := Run(Fresh, es);
    if Rank(t.stage) >= Rank(Verdict) {
      assert Order[..|t.opinions|] == Order;
    }
  }

  // ---------------------------------------------------------------------------
  // One page run, stage by stage.

  /** Without chat input the stages that wait for the user change nothing. */
  lemma NoInputNoChange(s: Snapshot, input: Option<string>, llm: Ask)
    requires s.stage == Init || s.stage == Investigate || s.stage == Consult
    requires !Submitted(input)
    ensures Next(s, input, llm) == s
  {
  }

  /**
   * INIT with a complaint: the complaint and the first question are shown,
   * the detective's context is the complaint with the profile followed by the
   * question, the round counter is 1 and the interrogation begins.
   */
  lemma InitOpens(s: Snapshot, complaint: string, llm: Ask)
    requires s.stage == Init && complaint != ""
    ensures var seed := [Msg(System, SeedContent(complaint, s.userMbti))];
      var q1 := llm(FirstQuestion, seed, false);
      Next(s, Some(complaint), llm)
        == s.(stage := Investigate, round := 1,
              history := s.history + [Msg(User, complaint)] + [Msg(Detective, q1)],
              investigateHistory := seed + [Msg(Assistant, q1)])
  {
  }

  /** Below the floor the prompt forbids finishing, and at or above it asks whether the case is complete. */
  lemma PromptFollowsFloor(curr: nat)
    ensures InvestigatePrompt(curr) == Probe(curr) <==> curr < MinRounds
    ensures InvestigatePrompt(curr) == EnoughCheck <==> curr >= MinRounds
  {
  }

  /**
   * The interrogation ends exactly when the user answered, the reply holds
   * `ENOUGH` somewhere and at least `MinRounds` questions were asked.
   */
  lemma HandoffExactly(s: Snapshot, input: Option<string>, llm: Ask)
    requires s.stage == Investigate
    ensures Next(s, input, llm).stage == RoundTable
      <==> Submitted(input) && Contains(InvestigateReply(s, input.value, llm), EnoughWord) && s.round >= MinRounds
    ensures Next(s, input, llm).stage != RoundTable ==> Next(s, input, llm).stage == Investigate
  {
  }

  /** Below the floor the session stays in the interrogation, whatever the model says. */
  lemma RoundFloor(s: Snapshot, input: Option<string>, llm: Ask)
    requires s.stage == Investigate && s.round < MinRounds
    ensures Next(s, input, llm).stage == Investigate
    ensures Next(s, input, llm).caseSummary == s.caseSummary
  {
  }

  /**
   * A continuing interrogation step: the answer and the cleaned question are
   * shown and added to the context, and the round counter goes up by one.
   */
  lemma InvestigateContinues(s: Snapshot, answer: string, llm: Ask)
    requires s.stage == Investigate && answer != "" && !Concludes(s, answer, llm)
    ensures var q := Trim(RemoveAll(InvestigateReply(s, answer, llm), EnoughTag));
      Next(s, Some(answer), llm)
        == s.(history := s.history + [Msg(User, answer)] + [Msg(Detective, q)],
              investigateHistory := s.investigateHistory + [Msg(User, answer)] + [Msg(Assistant, q)],
              round := s.round + 1)
  {
    var q := NextQuestion(s, answer, llm);
    assert Next(s, Some(answer), llm)
      == s.(history := s.history + [Msg(User, answer)] + [Msg(Detective, q)],
            investigateHistory := s.investigateHistory + [Msg(User, answer)] + [Msg(Assistant, q)],
            round := s.round + 1);
  }

  /**
   * The hand-off: the answer and the notice are shown, the context keeps the
   * answer, the summary of that context becomes the case summary, the round
   * counter is left alone and the round table begins.
   */
  lemma InvestigateHandsOff(s: Snapshot, answer: string, llm: Ask)
    requires s.stage == Investigate && answer != "" && Concludes(s, answer, llm)
    ensures var context := s.investigateHistory + [Msg(User, answer)];
      Next(s, Some(answer), llm)
        == s.(history := s.history + [Msg(User, answer)] + [Msg(Detective, HandoffNotice)],
              investigateHistory := context,
              caseSummary := llm(Summarise, context, false),
              stage := RoundTable)
  {
  }

  /**
   * A bare `ENOUGH` before the floor is not a signal and is not removed
   * either: it is shown to the user as the next question.
   */
  lemma BareEnoughShown(s: Snapshot, answer: string, llm: Ask)
    requires s.stage == Investigate && s.round < MinRounds && answer != ""
    requires InvestigateReply(s, answer, llm) == EnoughWord
    ensures Next(s, Some(answer), llm).history == s.history + [Msg(User, answer)] + [Msg(Detective, EnoughWord)]
  {
    EnoughSurvivesCleanup();
    assert NextQuestion(s, answer, llm) == EnoughWord;
    InvestigateContinues(s, answer, llm);
  }

  /** Neither removing the bracketed tag nor stripping changes the bare word. */
  lemma EnoughSurvivesCleanup()
    ensures Trim(RemoveAll(EnoughWord, EnoughTag)) == EnoughWord
  {
    assert !Contains(EnoughWord, EnoughTag);
    RemoveAllAbsent(EnoughWord, EnoughTag);
    assert EnoughWord[0] == 'E' && EnoughWord[|EnoughWord| - 1] == 'H';
    TrimUntouched(EnoughWord);
  }

  /** VERDICT: one ferryman message, at elevated temperature, and the consultation begins. */
  lemma VerdictDelivered(s: Snapshot, input: Option<string>, llm: Ask)
    requires s.stage == Verdict
    ensures Next(s, input, llm)
      == s.(history := s.history + [Msg(Ferryman, llm(Arbitrate(s.userMbti, s.caseSummary, Debate(s.opinions)), [], true))],
            stage := Consult)
  {
  }

  /**
   * CONSULT: the question is shown, then the ferryman's answer, and the stage
   * stays. The "previous verdict" handed to the ferryman is `history[-1]`
   * read after the question was appended: the question itself.
   */
  lemma ConsultAnswers(s: Snapshot, question: string, llm: Ask)
    requires s.stage == Consult && question != ""
    ensures Next(s, Some(question), llm)
      == s.(history := s.history + [Msg(User, question)] + [Msg(Ferryman, llm(FollowUp(question, question), [], false))])
  {
    var h := s.history + [Msg(User, question)];
    assert h[|h| - 1].content == question;
  }

  /** The case summary is written only by the hand-off from the interrogation to the round table. */
  lemma SummaryOnlyAtHandoff(s: Snapshot, input: Option<string>, llm: Ask)
    requires Next(s, input, llm).caseSummary != s.caseSummary
    ensures s.stage == Investigate && Next(s, input, llm).stage == RoundTable
  {
  }

  /**
   * One event never skips a stage or goes back, except for the restart;
   * the transcript and the opinions are only ever extended.
   */
  lemma StepProgress(s: Snapshot, e: Event)
    requires !e.Restart?
    ensures var t := Apply(s, e);
      && (t.stage == s.stage || (s.stage != Consult && Rank(t.stage) == Rank(s.stage) + 1))
      && s.history <= t.history
      && s.opinions <= t.opinions
      && (s.stage != Investigate ==> t.caseSummary == s.caseSummary)
  {
    if e.Page? {
      NextProgress(s, e.input, Connect(e.llm));
    }
  }

  /** From `s` to `t` the stage stays or moves one on, nothing is taken back, and the summary is only written in INVESTIGATE. */
  ghost predicate Advances(s: Snapshot, t: Snapshot) {
    && (t.stage == s.stage || (s.stage != Consult && Rank(t.stage) == Rank(s.stage) + 1))
    && s.history <= t.history
    && s.opinions <= t.opinions
    && (s.stage != Investigate ==> t.caseSummary == s.caseSummary)
  }

  /** `StepProgress` for one page run, whatever the model answers. */
  lemma NextProgress(s: Snapshot, input: Option<string>, llm: Ask)
    ensures Advances(s, Next(s, input, llm))
  {
    if s.stage == RoundTable {
      RoundTableProgress(s, input, llm);
    } else if s.stage == Investigate {
      InvestigateProgress(s, input, llm);
    }
  }

  lemma RoundTableProgress(s: Snapshot, input: Option<string>, llm: Ask)
    requires s.stage == RoundTable
    ensures Advances(s, Next(s, input, llm))
  {
    var r := NextSpeaker(s.opinions);
    if r.Some? {
      assert Next(s, input, llm).opinions == s.opinions + [Entry(r.value, Opinion(s, r.value, llm))];
    }
  }

  lemma InvestigateProgress(s: Snapshot, input: Option<string>, llm: Ask)
    requires s.stage == Investigate
    ensures Advances(s, Next(s, input, llm))
  {
  }

  /** Without a restart the stage never moves back, and the transcript and opinions only grow. */
  lemma {:induction false} RunProgress(s: Snapshot, es: seq<Event>)
    requires NoRestart(es)
    ensures var t := Run(s, es);
      Rank(s.stage) <= Rank(t.stage) && s.history <= t.history && s.opinions <= t.opinions
    decreases |es|
  {
    if es != [] {
      StepProgress(s, es[0]);
      RunProgress(Apply(s, es[0]), es[1..]);
    }
  }

  /** Once the round table has begun, nothing but a restart changes the case summary. */
  lemma {:induction false} RunSummaryStable(s: Snapshot, es: seq<Event>)
    requires NoRestart(es) && Rank(s.stage) >= Rank(RoundTable)
    ensures Run(s, es).caseSummary == s.caseSummary
    decreases |es|
  {
    if es != [] {
      StepProgress(s, es[0]);
      RunSummaryStable(Apply(s, es[0]), es[1..]);
    }
  }

  /** One page run of the round table with a faction still missing, as an event. */
  lemma RoundTableTurn(s: Snapshot, e: Event)
    requires Inv(s) && s.stage == RoundTable && |s.opinions| < |Order| && e.Page?
    ensures var t := Apply(s, e);
      && Inv(t) && |t.opinions| == |s.opinions| + 1
      && s.opinions <= t.opinions && s.history <= t.history
      && t == s.(history := t.history, opinions := t.opinions)
  {
    var llm := Connect(e.llm);
    RoundTableSpeaks(s, llm);
    assert Apply(s, e) == Next(s, None, llm);
  }

  /**
   * The round table, from any reachable state in it: as many page runs as
   * factions are missing give every faction its say, in order, and change
   * nothing but the transcript and the opinions. From there `RoundTableAdjourns`
   * gives the next run: the move to the verdict.
   */
  lemma {:induction false} CouncilHearsAll(s: Snapshot, es: seq<Event>)
    requires Inv(s) && s.stage == RoundTable
    requires OnlyPages(es) && |es| == |Order| - |s.opinions|
    ensures var t := Run(s, es);
      && Inv(t) && Keys(t.opinions) == Order
      && s.opinions <= t.opinions && s.history <= t.history
      && t == s.(history := t.history, opinions := t.opinions)
    decreases |es|
  {
    if es == [] {
      assert Order[..|s.opinions|] == Order;
    } else {
      var u := Apply(s, es[0]);
      RoundTableTurn(s, es[0]);
      assert OnlyPages(es[1..]) by {
        forall i | 0 <= i < |es[1..]| ensures es[1..][i].Page? { assert es[1..][i] == es[i + 1]; }
      }
      CouncilHearsAll(u, es[1..]);
      assert Run(s, es) == Run(u, es[1..]);
    }
  }

  // ---------------------------------------------------------------------------
  // Restart and the missing service.

  /** The restart button restores the defaults, with the profile back at "INFP". */
  lemma RestartRestores(s: Snapshot)
    ensures Apply(s, Restart) == Snapshot(Init, [], 0, [], "", [], "INFP")
  {
  }

  lemma PlaceholderHasNoSignal()
    ensures !Contains(Placeholder, EnoughWord)
  {
    assert forall k :: 0 <= k < |Placeholder| ==> Placeholder[k] != 'E';
    forall i | 0 <= i <= |Placeholder| - |EnoughWord|
      ensures !OccursAt(Placeholder, EnoughWord, i)
    {
      assert Placeholder[i..i + |EnoughWord|][0] == Placeholder[i];
    }
  }

  /** Without a client every reply is the placeholder, which never signals completion. */
  lemma OfflineNeverConcludes(s: Snapshot, input: Option<string>)
    requires s.stage == Investigate
    ensures Next(s, input, Connect(Offline)).stage == Investigate
  {
    if Submitted(input) {
      PlaceholderHasNoSignal();
      assert InvestigateReply(s, input.value, Connect(Offline)) == Placeholder;
    }
  }

  /** A session without a client never gets past the interrogation. */
  lemma {:induction false} OfflineStaysInInterrogation(s: Snapshot, es: seq<Event>)
    requires Rank(s.stage) <= Rank(Investigate) && AllOffline(es)
    ensures Rank(Run(s, es).stage) <= Rank(Investigate)
    decreases |es|
  {
    if es != [] {
      if es[0].Page? && s.stage == Investigate {
        OfflineNeverConcludes(s, es[0].input);
      }
      OfflineStaysInInterrogation(Apply(s, es[0]), es[1..]);
    }
  }
}
