/** Runs in which a reconnecting or fresh client does not end up with the transcript, though it is live and drained. */
module ResumeFlaws {
  import opened Options
  import opened Timeline
  import opened Collection
  import opened SessionRuntime
  import opened Router
  import opened Replication
  import opened Erasure
  import opened Follow
  import opened ResumeTheorems

  // ---- a run that loses a message ----

  /** A run can be continued by one more step. */
  lemma {:induction false} Then(s: System, steps: seq<Step>, m: System, step: Step)
    requires RunsTo(s, steps, m) && Enabled(m, step)
    ensures RunsTo(s, steps + [step], Take(m, step))
    decreases |steps|
  {
    if steps == [] {
      assert steps + [step] == [step] && [step][1..] == [];
    } else {
      Then(Take(s, steps[0]), steps[1..], m, step);
      assert (steps + [step])[1..] == steps[1..] + [step];
    }
  }

  /** A session whose SDK loop died right after its first prompt: one logged event, no snapshot in memory. */
  function Crashed(prompt: Item, cap: nat): Runtime {
    Runtime([Event(1, Append(prompt))], 2, cap, None, 0, false)
  }

  function CrashedSystem(prompt: Item, cap: nat, link: Option<Link>, client: Option<Client>, nextReq: nat): System {
    System([[]], [[Append(prompt)]], Crashed(prompt, cap), Source([], 0), false, link, client, nextReq)
  }

  lemma AnswerToNewSession(s: System, prompt: Item, cap: nat)
    requires cap > 0 && Shaped(s) && s.bases == [[]] && s.logs == [[Append(prompt)]] && s.rt == Crashed(prompt, cap)
    ensures var (out, p) := Respond(s, Command(0, None, None, true), []);
            && out.rt == s.rt && p == ResponsePacket(Response(0, [], 1, 0, false), 0, Source([], 0))
            && Packets(Replay(out.rt.buffer, out.since)) == [EventPacket(Event(1, Append(prompt)))]
  {}

  lemma AnswerToResume(s: System, prompt: Item, cap: nat)
    requires cap > 0 && Shaped(s) && s.bases == [[]] && s.logs == [[Append(prompt)]] && s.rt == Crashed(prompt, cap)
    ensures var (out, p) := Respond(s, Command(1, Some(1), Some(0), false), []);
            && out.rt == s.rt && p.ResponsePacket? && p.response == Response(1, [], 1, 0, true)
            && Packets(Replay(out.rt.buffer, out.since)) == []
  {
    assert Replay([Event(1, Append(prompt))], 1) == [];
  }

  function FlakySetup(prompt: Item): seq<Step> {
    [] + [SeedStep] + [AddEventStep(Append(prompt))] + [LoopExitStep]
  }

  function FlakyAnswer(prompt: Item): seq<Step> {
    FlakySetup(prompt) + [MountStep(true)] + [ConnectStep] + [ServeStep([])] + [DeliverStep]
  }

  /** The link dies before the one replayed event arrives; the client reconnects with the label as its hint. */
  function FlakyRun(prompt: Item): seq<Step> {
    FlakyAnswer(prompt) + [BreakStep(0)] + [DisconnectStep] + [ConnectStep] + [ServeStep([])] + [DeliverStep]
  }

  lemma FlakySetupRuns(prompt: Item, cap: nat)
    requires cap > 0
    ensures RunsTo(Boot([], cap), FlakySetup(prompt), CrashedSystem(prompt, cap, None, None, 0))
  {
    var s0 := Boot([], cap);
    var s1 := Take(s0, SeedStep);
    assert KeysUnique(FoldDelta(Truth(s1), Append(prompt)));
    var s2 := Take(s1, AddEventStep(Append(prompt)));
    assert Log(s1) + [Append(prompt)] == [Append(prompt)];
    assert s2.rt.buffer == [Event(1, Append(prompt))];
    assert Take(s2, LoopExitStep) == CrashedSystem(prompt, cap, None, None, 0);
    Then(s0, [], s0, SeedStep);
    Then(s0, [] + [SeedStep], s1, AddEventStep(Append(prompt)));
    Then(s0, [] + [SeedStep] + [AddEventStep(Append(prompt))], s2, LoopExitStep);
  }

  lemma FlakyAnswerRuns(prompt: Item, cap: nat)
    requires cap > 0
    ensures RunsTo(Boot([], cap), FlakyAnswer(prompt),
                   CrashedSystem(prompt, cap, Some(Link([], [EventPacket(Event(1, Append(prompt)))], true)),
                                 Some(Client(map[], Some(1), Some(0), Live, true, 0, false, [], 0, Source([], 0))), 1).(subscribed := true))
  {
    FlakySetupRuns(prompt, cap);
    var (s0, steps) := (Boot([], cap), FlakySetup(prompt));
    var s3 := CrashedSystem(prompt, cap, None, None, 0);
    Then(s0, steps, s3, MountStep(true));
    var s4 := Take(s3, MountStep(true));
    Then(s0, steps + [MountStep(true)], s4, ConnectStep);
    var s5 := Take(s4, ConnectStep);
    assert s5 == CrashedSystem(prompt, cap, Some(Link([Subscribe(Command(0, None, None, true))], [], true)),
                               Some(NewClient(true).(phase := Waiting(0))), 1);
    AnswerFlake(s5, s0, steps + [MountStep(true)] + [ConnectStep], prompt, cap);
  }

  lemma AnswerFlake(s5: System, s0: System, steps: seq<Step>, prompt: Item, cap: nat)
    requires cap > 0 && RunsTo(s0, steps, s5)
    requires s5 == CrashedSystem(prompt, cap, Some(Link([Subscribe(Command(0, None, None, true))], [], true)),
                                 Some(NewClient(true).(phase := Waiting(0))), 1)
    ensures RunsTo(s0, steps + [ServeStep([])] + [DeliverStep],
                   CrashedSystem(prompt, cap, Some(Link([], [EventPacket(Event(1, Append(prompt)))], true)),
                                 Some(Client(map[], Some(1), Some(0), Live, true, 0, false, [], 0, Source([], 0))), 1).(subscribed := true))
  {
    AnswerToNewSession(s5, prompt, cap);
    Then(s0, steps, s5, ServeStep([]));
    var s6 := Take(s5, ServeStep([]));
    var answer := ResponsePacket(Response(0, [], 1, 0, false), 0, Source([], 0));
    assert s6.link.value == Link([], [answer, EventPacket(Event(1, Append(prompt)))], true);
    Then(s0, steps + [ServeStep([])], s6, DeliverStep);
  }

  /**
   The label is not always honest: in this run the client ends up live on a drained link, with its cursor
   at the end of the log, and shows nothing although the transcript holds a message.
   */
  lemma FlakyRunLosesMessage(prompt: Item, cap: nat) returns (s: System)
    requires cap > 0
    ensures RunsTo(Boot([], cap), FlakyRun(prompt), s)
    ensures Shaped(s) && Truth(s) == [prompt]
    ensures s.link.Some? && s.link.value.open && s.link.value.down == []
    ensures s.client.Some? && s.client.value.phase.Live? && s.client.value.cursor == Some(|Log(s)|)
    ensures s.client.value.rows == map[]
  {
    FlakyAnswerRuns(prompt, cap);
    var (s0, steps) := (Boot([], cap), FlakyAnswer(prompt));
    var c := Client(map[], Some(1), Some(0), Live, true, 0, false, [], 0, Source([], 0));
    var s1 := CrashedSystem(prompt, cap, Some(Link([], [EventPacket(Event(1, Append(prompt)))], true)),
                            Some(c), 1).(subscribed := true);
    Then(s0, steps, s1, BreakStep(0));
    var s2 := Take(s1, BreakStep(0));
    Then(s0, steps + [BreakStep(0)], s2, DisconnectStep);
    var s3 := CrashedSystem(prompt, cap, None, Some(c.(phase := Detached)), 1);
    assert Take(s2, DisconnectStep) == s3;
    s := ResumeAfterFlake(s3, s0, steps + [BreakStep(0)] + [DisconnectStep], prompt, cap, c);
  }

  lemma ResumeAfterFlake(s3: System, s0: System, steps: seq<Step>, prompt: Item, cap: nat, c: Client) returns (s: System)
    requires cap > 0 && c == Client(map[], Some(1), Some(0), Live, true, 0, false, [], 0, Source([], 0))
    requires s3 == CrashedSystem(prompt, cap, None, Some(c.(phase := Detached)), 1) && RunsTo(s0, steps, s3)
    ensures RunsTo(s0, steps + [ConnectStep] + [ServeStep([])] + [DeliverStep], s)
    ensures s == s3.(subscribed := true, link := Some(Link([], [], true)), client := Some(c.(lost := true, applied := 1)), nextReq := 2)
    ensures Shaped(s) && Truth(s) == [prompt]
  {
    hide RunsTo, FoldAll, FoldDelta;
    FlakeTruth(prompt);
    Then(s0, steps, s3, ConnectStep);
    var s4 := Take(s3, ConnectStep);
    assert s4.link == Some(Link([Subscribe(Command(1, Some(1), Some(0), false))], [], true));
    AnswerToResume(s4, prompt, cap);
    Then(s0, steps + [ConnectStep], s4, ServeStep([]));
    var s5 := Take(s4, ServeStep([]));
    assert |s5.link.value.down| == 1 && s5.link.value.down[0].response == Response(1, [], 1, 0, true);
    Then(s0, steps + [ConnectStep] + [ServeStep([])], s5, DeliverStep);
    s := Take(s5, DeliverStep);
    assert s.link.value == Link([], [], true);
    assert s.client.value == c.(lost := true, applied := 1);
    assert Log(s)[..1] == [Append(prompt)];
  }

  lemma FlakeTruth(prompt: Item)
    ensures FoldAll([], [Append(prompt)]) == [prompt]
  {
    assert [Append(prompt)][..0] == [] && [] + [prompt] == [prompt];
  }

  // ---- a second create forgets the first prompt ----

  /** The agent died before it stored the first prompt, so the retry is a create again; then a client arrives. */
  function RetryRun(first: Item, second: Item, disk: seq<Item>): seq<Step> {
    FlakySetup(first) + [SeedStep] + [AddEventStep(Append(second))] + [MountStep(false)] + [ConnectStep]
    + [ServeStep(disk)] + [DeliverStep]
  }

  /** After the retry: both prompts are logged, the snapshot holds the second, its cursor is the log's end. */
  function Retried(first: Item, second: Item, cap: nat): Runtime {
    Runtime([Event(1, Append(first)), Event(2, Append(second))], 3, cap, Some([second]), 2, true)
  }

  function RetriedSystem(first: Item, second: Item, cap: nat, link: Option<Link>, client: Option<Client>, nextReq: nat): System {
    System([[]], [[Append(first), Append(second)]], Retried(first, second, cap), Source([], 1), false, link, client, nextReq)
  }

  lemma TwoAppends(first: Item, second: Item)
    ensures FoldAll([], [Append(first), Append(second)]) == [first, second]
  {
    var ds := [Append(first), Append(second)];
    assert ds[..1] == [Append(first)] && [Append(first)][..0] == [];
    FoldAllStep([], ds, 1);
    assert ds[..2] == ds;
  }

  lemma AppendAfterSeed(first: Item, second: Item, cap: nat)
    requires cap >= 2
    ensures Push(SeedCreate(Crashed(first, cap)), Append(second)) == Retried(first, second, cap)
    ensures [Append(first)] + [Append(second)] == [Append(first), Append(second)]
  {
    assert [Event(1, Append(first))] + [Event(2, Append(second))] == [Event(1, Append(first)), Event(2, Append(second))];
    assert [] + [second] == [second];
  }

  lemma RetrySetupRuns(first: Item, second: Item, cap: nat)
    requires cap >= 2 && Key(first) != Key(second)
    ensures RunsTo(Boot([], cap), FlakySetup(first) + [SeedStep] + [AddEventStep(Append(second))],
                   RetriedSystem(first, second, cap, None, None, 0))
  {
    hide FoldAll, FoldDelta, Push, RetriedSystem, CrashedSystem;
    FlakySetupRuns(first, cap);
    CrashThenRetry(first, second, cap);
    var s0, steps := Boot([], cap), FlakySetup(first);
    var s1 := CrashedSystem(first, cap, None, None, 0);
    Then(s0, steps, s1, SeedStep);
    Then(s0, steps + [SeedStep], Take(s1, SeedStep), AddEventStep(Append(second)));
  }

  lemma CrashThenRetry(first: Item, second: Item, cap: nat)
    requires cap >= 2 && Key(first) != Key(second)
    ensures var s1 := CrashedSystem(first, cap, None, None, 0);
            && Enabled(s1, SeedStep) && Enabled(Take(s1, SeedStep), AddEventStep(Append(second)))
            && Take(Take(s1, SeedStep), AddEventStep(Append(second))) == RetriedSystem(first, second, cap, None, None, 0)
  {
    hide Push;
    var s1 := CrashedSystem(first, cap, None, None, 0);
    assert Log(s1)[..1] == [Append(first)] && FoldAll([], [Append(first)][..0]) == [];
    assert Truth(s1) == [first] && Truth(Take(s1, SeedStep)) == [first];
    AppendAfterSeed(first, second, cap);
  }

  lemma AnswerAfterRetry(s: System, first: Item, second: Item, cap: nat, disk: seq<Item>)
    requires Shaped(s) && s.bases == [[]] && s.logs == [[Append(first), Append(second)]] && s.rt == Retried(first, second, cap)
    requires cap >= 2 && s.source == Source([], 1)
    ensures var (out, p) := Respond(s, Command(0, None, None, false), disk);
            && out.rt == s.rt && p == ResponsePacket(Response(0, [second], 2, 0, false), 2, Source([], 1))
            && Packets(Replay(out.rt.buffer, out.since)) == []
  {
    TwoAppends(first, second);
    assert Log(s)[..2] == Log(s);
    var buffer := s.rt.buffer;
    assert buffer[1..] == [Event(2, Append(second))] && buffer[1..][1..] == [];
    assert Replay(buffer[1..], 2) == Replay([], 2) == [];
  }

  /**
   The daemon's own snapshot lacks the first prompt though its cursor is the log's end, so a fresh client is answered
   with a caught-up snapshot, ends live and drained, and never shows that prompt.
   */
  lemma RetryLosesFirstPrompt(first: Item, second: Item, cap: nat, disk: seq<Item>) returns (s: System)
    requires cap >= 2 && Key(first) != Key(second)
    ensures RunsTo(Boot([], cap), RetryRun(first, second, disk), s)
    ensures Shaped(s) && Truth(s) == [first, second] && s.rt.settled == Some([second]) && s.rt.settledCursor == |Log(s)|
    ensures s.link.Some? && s.link.value.open && s.link.value.down == []
    ensures s.client.Some? && s.client.value.phase.Live? && s.client.value.cursor == Some(|Log(s)|)
    ensures s.client.value.rows == map[Key(second) := Row(second, 0)] && Key(first) !in s.client.value.rows
  {
    RetrySetupRuns(first, second, cap);
    var s0, steps := Boot([], cap), FlakySetup(first) + [SeedStep] + [AddEventStep(Append(second))];
    var s1 := RetriedSystem(first, second, cap, None, None, 0);
    Then(s0, steps, s1, MountStep(false));
    Then(s0, steps + [MountStep(false)], Take(s1, MountStep(false)), ConnectStep);
    var s2 := RetriedSystem(first, second, cap, Some(Link([Subscribe(Command(0, None, None, false))], [], true)),
                            Some(NewClient(false).(phase := Waiting(0))), 1);
    assert Take(Take(s1, MountStep(false)), ConnectStep) == s2;
    s := ServeRetry(s2, s0, steps + [MountStep(false)] + [ConnectStep], first, second, cap, disk);
  }

  lemma ServeRetry(s2: System, s0: System, steps: seq<Step>, first: Item, second: Item, cap: nat, disk: seq<Item>) returns (s: System)
    requires cap >= 2 && RunsTo(s0, steps, s2) && Key(first) != Key(second)
    requires s2 == RetriedSystem(first, second, cap, Some(Link([Subscribe(Command(0, None, None, false))], [], true)),
                                 Some(NewClient(false).(phase := Waiting(0))), 1)
    ensures RunsTo(s0, steps + [ServeStep(disk)] + [DeliverStep], s)
    ensures Shaped(s) && Truth(s) == [first, second] && s.rt == Retried(first, second, cap) && |Log(s)| == 2
    ensures s.link == Some(Link([], [], true))
    ensures s.client.Some? && s.client.value.phase.Live? && s.client.value.cursor == Some(2)
    ensures s.client.value.rows == map[Key(second) := Row(second, 0)]
  {
    AnswerAfterRetry(s2, first, second, cap, disk);
    TwoAppends(first, second);
    Then(s0, steps, s2, ServeStep(disk));
    var s3 := Take(s2, ServeStep(disk));
    var answer := ResponsePacket(Response(0, [second], 2, 0, false), 2, Source([], 1));
    assert s3.link.value == Link([], [answer], true);
    Then(s0, steps + [ServeStep(disk)], s3, DeliverStep);
    s := Take(s3, DeliverStep);
    assert [second][..0] == [] && Ingest([second]) == map[Key(second) := Row(second, 0)];
    assert Log(s)[..2] == Log(s);
  }

  // ---- a disk read in mid-turn ----

  /** A resumed session streams a text block; a client arrives and is answered from a store without that block. */
  function MidTurnRun(first: Item, uuid: string): seq<Step> {
    BeforeAnswer(uuid) + [ServeStep([first])] + [DeliverStep] + [AddEventStep(PatchText(uuid, "hi"))] + [DeliverStep]
  }

  function Started(uuid: string): Delta { Append(AssistantMessage(uuid, "", None)) }

  /** The resumed session after one event, before anybody asked. */
  function Streaming(first: Item, uuid: string, cap: nat, link: Option<Link>, client: Option<Client>, nextReq: nat): System {
    System([[first]], [[Started(uuid)]], Runtime([Event(1, Started(uuid))], 2, cap, None, 0, true), Source([], 0), false,
           link, client, nextReq)
  }

  lemma StreamingTruth(first: Item, uuid: string)
    ensures var block := AssistantMessage(uuid, "", None);
            && FoldAll([first], []) == [first] && FoldAll([first], [Append(block)]) == [first, block]
            && FoldAll([first], [Append(block)] + [PatchText(uuid, "hi")]) == [first, AssistantMessage(uuid, "hi", None)]
  {
    var block := AssistantMessage(uuid, "", None);
    assert [Append(block)][..0] == [];
    var ds := [Append(block)] + [PatchText(uuid, "hi")];
    assert ds[..1] == [Append(block)];
    assert LastHit([first, block], TextTarget(uuid)) == 1 && "" + "hi" == "hi";
  }

  lemma StreamingRuns(first: Item, uuid: string, cap: nat)
    requires cap >= 2 && Key(first) != uuid
    ensures RunsTo(Boot([first], cap), [] + [SpawnResumeStep] + [AddEventStep(Started(uuid))],
                   Streaming(first, uuid, cap, None, None, 0))
  {
    StreamingTruth(first, uuid);
    var s0 := Boot([first], cap);
    Then(s0, [], s0, SpawnResumeStep);
    var s1 := Take(s0, SpawnResumeStep);
    assert Truth(s1) == [first];
    Then(s0, [] + [SpawnResumeStep], s1, AddEventStep(Started(uuid)));
    var s2 := Take(s1, AddEventStep(Started(uuid)));
    assert [] + [Started(uuid)] == [Started(uuid)] && s2.rt.buffer == [Event(1, Started(uuid))];
    assert s2 == Streaming(first, uuid, cap, None, None, 0);
  }

  /** The answer misses the streaming block and is kept as the snapshot at the log's end. */
  lemma AnswerInMidTurn(s: System, first: Item, uuid: string, cap: nat)
    requires cap >= 2 && s == Streaming(first, uuid, cap, s.link, s.client, s.nextReq)
    ensures Shaped(s)
    ensures var (out, p) := Respond(s, Command(0, None, None, false), [first]);
            && out.rt == s.rt.(settled := Some([first]), settledCursor := 1)
            && p == ResponsePacket(Response(0, [first], 1, 0, false), 1, Source([first], 1))
            && Packets(Replay(out.rt.buffer, out.since)) == []
            && SourceAfter(s, Command(0, None, None, false), [first]) == Source([first], 1)
  {
    StreamingTruth(first, uuid);
    assert Log(s)[..1] == Log(s);
    assert s.rt.buffer[1..] == [] && Replay([], 1) == [];
  }

  function Answered(first: Item, uuid: string, cap: nat): System {
    Streaming(first, uuid, cap, Some(Link([], [], true)),
              Some(Client(map[Key(first) := Row(first, 0)], Some(1), Some(0), Live, false, 1, false, [first], 1, Source([first], 1))), 1).(
      rt := Runtime([Event(1, Started(uuid))], 2, cap, Some([first]), 1, true), source := Source([first], 1), subscribed := true)
  }

  /** A careful run can be continued by one more careful step. */
  lemma {:induction false} ThenCareful(s: System, steps: seq<Step>, m: System, step: Step)
    requires CarefulRun(false, s, steps, m) && Enabled(m, step) && CarefulStep(false, m, step) && HonestStep(m, step)
    ensures CarefulRun(false, s, steps + [step], Take(m, step))
    decreases |steps|
  {
    hide CarefulStep, HonestStep, Enabled;
    if steps == [] {
      assert steps + [step] == [step] && [step][1..] == [];
    } else {
      ThenCareful(Take(s, steps[0]), steps[1..], m, step);
      assert (steps + [step])[1..] == steps[1..] + [step];
    }
  }

  predicate Plain(step: Step) {
    !step.SeedStep? && !step.OtherSubscribeStep? && !step.ServeStep?
  }

  /** Only creates and answers can be careless. */
  lemma {:induction false} PlainRunIsCareful(s: System, steps: seq<Step>, t: System)
    requires RunsTo(s, steps, t) && forall i :: 0 <= i < |steps| ==> Plain(steps[i])
    ensures CarefulRun(false, s, steps, t)
    decreases |steps|
  {
    hide Enabled, Take;
    if steps != [] {
      assert Plain(steps[0]) && Enabled(s, steps[0]);
      PlainIsCareful(s, steps[0]);
      PlainRunIsCareful(Take(s, steps[0]), steps[1..], t);
    }
  }

  lemma PlainIsCareful(s: System, step: Step)
    requires Enabled(s, step) && Plain(step)
    ensures CarefulStep(false, s, step) && HonestStep(s, step)
  {}

  function BeforeAnswer(uuid: string): seq<Step> {
    [] + [SpawnResumeStep] + [AddEventStep(Started(uuid))] + [MountStep(false)] + [ConnectStep]
  }

  lemma AskedRuns(first: Item, uuid: string, cap: nat)
    requires cap >= 2 && Key(first) != uuid
    ensures RunsTo(Boot([first], cap), BeforeAnswer(uuid), Asked(first, uuid, cap))
  {
    StreamingRuns(first, uuid, cap);
    var s0, steps := Boot([first], cap), [] + [SpawnResumeStep] + [AddEventStep(Started(uuid))];
    var s1 := Streaming(first, uuid, cap, None, None, 0);
    Then(s0, steps, s1, MountStep(false));
    Then(s0, steps + [MountStep(false)], Take(s1, MountStep(false)), ConnectStep);
    assert Take(Take(s1, MountStep(false)), ConnectStep) == Asked(first, uuid, cap);
  }

  lemma AnsweredRuns(first: Item, uuid: string, cap: nat)
    requires cap >= 2 && Key(first) != uuid
    ensures var steps := BeforeAnswer(uuid) + [ServeStep([first])] + [DeliverStep];
            RunsTo(Boot([first], cap), steps, Answered(first, uuid, cap))
            && CarefulRun(false, Boot([first], cap), steps, Answered(first, uuid, cap))
  {
    hide RunsTo, CarefulRun, CarefulStep, HonestStep, Answered;
    AskedRuns(first, uuid, cap);
    PlainRunIsCareful(Boot([first], cap), BeforeAnswer(uuid), Asked(first, uuid, cap));
    AskedIsAnswered(first, uuid, cap);
    AskedIsCareful(first, uuid, cap);
    var s0, steps, s2 := Boot([first], cap), BeforeAnswer(uuid), Asked(first, uuid, cap);
    Then(s0, steps, s2, ServeStep([first]));
    ThenCareful(s0, steps, s2, ServeStep([first]));
    var s3 := Take(s2, ServeStep([first]));
    PlainIsCareful(s3, DeliverStep);
    Then(s0, steps + [ServeStep([first])], s3, DeliverStep);
    ThenCareful(s0, steps + [ServeStep([first])], s3, DeliverStep);
  }

  lemma AskedIsCareful(first: Item, uuid: string, cap: nat)
    requires cap >= 2 && Key(first) != uuid
    ensures var s := Asked(first, uuid, cap);
            Enabled(s, ServeStep([first])) && CarefulStep(false, s, ServeStep([first])) && HonestStep(s, ServeStep([first]))
  {
    hide FoldAll, Erase;
    StreamingTruth(first, uuid);
    MidTurnReopens(first, uuid);
    assert [Started(uuid)][..1] == [Started(uuid)];
  }

  function Asked(first: Item, uuid: string, cap: nat): System {
    Streaming(first, uuid, cap, Some(Link([Subscribe(Command(0, None, None, false))], [], true)),
              Some(NewClient(false).(phase := Waiting(0))), 1)
  }

  lemma AskedIsAnswered(first: Item, uuid: string, cap: nat)
    requires cap >= 2 && Key(first) != uuid
    ensures Enabled(Asked(first, uuid, cap), ServeStep([first]))
    ensures var s3 := Take(Asked(first, uuid, cap), ServeStep([first]));
            Enabled(s3, DeliverStep) && Take(s3, DeliverStep) == Answered(first, uuid, cap)
  {
    hide Handle, Replay, FoldAll, SourceAfter;
    var s2 := Asked(first, uuid, cap);
    AnswerInMidTurn(s2, first, uuid, cap);
    var s3 := Take(s2, ServeStep([first]));
    assert s3.link.value == Link([], [ResponsePacket(Response(0, [first], 1, 0, false), 1, Source([first], 1))], true);
    assert [first][..0] == [] && Ingest([first]) == map[Key(first) := Row(first, 0)];
  }

  /**
   No event falls between the read and the cursor, and still the message never appears: the store lags the stream, the
   lagging read is kept as the snapshot, and the later text patches a message that nobody has. The read did read like
   the transcript of its time, with the open block still empty; what fails is that the block was reopened.
   */
  lemma MidTurnReadLosesMessage(first: Item, uuid: string, cap: nat) returns (s: System)
    requires cap >= 2 && Key(first) != uuid
    ensures RunsTo(Boot([first], cap), MidTurnRun(first, uuid), s)
    ensures Shaped(s) && Truth(s) == [first, AssistantMessage(uuid, "hi", None)]
    ensures s.rt.settled == Some([first]) && s.rt.settledCursor == |Log(s)|
    ensures s.link == Some(Link([], [], true)) && s.client.Some? && s.client.value.phase.Live?
    ensures s.client.value.cursor == Some(|Log(s)|) && s.client.value.rows == map[Key(first) := Row(first, 0)]
    ensures CarefulRun(false, Boot([first], cap), MidTurnRun(first, uuid), s)
    ensures var source := s.client.value.source;
            && |Log(s)| > 0 && source == Source([first], 1) && Erase(source.items) == Erase(TruthAt(s, Epoch(s), 1))
            && Untouched(source.items, Log(s)[1..]) && Reopens(TruthAt(s, Epoch(s), 1), Log(s)[1..])
  {
    hide Answered, FoldAll, FoldDelta, LastHit, Push, Erase, Untouched, Reopens, RunsTo, CarefulRun, CarefulStep, HonestStep;
    MidTurnReopens(first, uuid);
    AnsweredRuns(first, uuid, cap);
    PatchFindsNothing(first, uuid, cap);
    var s0, steps := Boot([first], cap), BeforeAnswer(uuid) + [ServeStep([first])] + [DeliverStep];
    var s1, patch := Answered(first, uuid, cap), PatchText(uuid, "hi");
    PlainIsCareful(s1, AddEventStep(patch));
    Then(s0, steps, s1, AddEventStep(patch));
    ThenCareful(s0, steps, s1, AddEventStep(patch));
    var s2 := Take(s1, AddEventStep(patch));
    PlainIsCareful(s2, DeliverStep);
    Then(s0, steps + [AddEventStep(patch)], s2, DeliverStep);
    ThenCareful(s0, steps + [AddEventStep(patch)], s2, DeliverStep);
    s := Take(Take(s1, AddEventStep(patch)), DeliverStep);
    assert [EventPacket(Event(2, patch))][1..] == [];
  }

  lemma PatchFindsNothing(first: Item, uuid: string, cap: nat)
    requires cap >= 2 && Key(first) != uuid
    ensures var s1, patch := Answered(first, uuid, cap), PatchText(uuid, "hi");
            && Enabled(s1, AddEventStep(patch))
            && var s2 := Take(s1, AddEventStep(patch));
            && Shaped(s2) && Log(s2) == [Started(uuid)] + [patch]
            && Truth(s2) == [first, AssistantMessage(uuid, "hi", None)]
            && Log(s2)[1..] == [patch] && TruthAt(s2, Epoch(s2), 1) == [first, AssistantMessage(uuid, "", None)]
            && s2.rt.settled == Some([first]) && s2.rt.settledCursor == 2
            && s2.link == Some(Link([], [EventPacket(Event(2, patch))], true))
            && s2.client == s1.client
            && s2.client == Some(Client(map[Key(first) := Row(first, 0)], Some(1), Some(0), Live, false, 1, false, [first], 1, Source([first], 1)))
  {
    StreamingTruth(first, uuid);
    var s1, patch := Answered(first, uuid, cap), PatchText(uuid, "hi");
    assert Log(s1)[..1] == Log(s1) && Truth(s1) == [first, AssistantMessage(uuid, "", None)];
    assert FoldDelta(Truth(s1), patch) == [first, AssistantMessage(uuid, "hi", None)];
    assert LastHit([first], TextTarget(uuid)) == -1;
    assert [] + [EventPacket(Event(2, patch))] == [EventPacket(Event(2, patch))];
    assert Log(Take(s1, AddEventStep(patch)))[..2] == [Started(uuid)] + [patch];
    assert ([Started(uuid)] + [patch])[..1] == [Started(uuid)];
  }

  /** An open block without text reads like no block at all, and the next chunk reopens it. */
  lemma MidTurnReopens(first: Item, uuid: string)
    requires Key(first) != uuid
    ensures var open, ds := [first, AssistantMessage(uuid, "", None)], [PatchText(uuid, "hi")];
            Erase([first]) == Erase(open) && Untouched([first], ds) && Reopens(open, ds)
  {
    var open, ds := [first, AssistantMessage(uuid, "", None)], [PatchText(uuid, "hi")];
    assert open == [first] + [AssistantMessage(uuid, "", None)] && Erase([first]) + [] == Erase([first]);
    EraseOneMore([first], AssistantMessage(uuid, "", None));
    LastHitIs([first], TextTarget(uuid), -1);
    LastHitIs(open, TextTarget(uuid), 1);
    assert ReopensAt(open, ds, 0);
  }
}
