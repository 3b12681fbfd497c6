/** What runs of the topic subscriber keep, with any number of callbacks waiting for the model or for a submission. */
module EchoSafety {
  import opened Echo

  /** A message on the topic; answers is the number of the message a reply of the server answers, zero for other senders.
      Message number n of the topic is log[n - 1]. */
  datatype Entry = Entry(text: string, answers: nat)

  datatype Sending = Sending(number: nat, reply: string)

  /** generating and sending hold the callbacks at their two awaits; failed lists those that ended there. */
  datatype State = State(memory: Memory, log: seq<Entry>, generating: seq<nat>, sending: seq<Sending>, failed: seq<nat>)

  const INITIAL := State(EMPTY, [], [], [], [])

  datatype Event =
    | Post(text: string)
    | Receive(number: nat)
    | Generated(i: nat, reply: string)
    | GenerationFailed(i: nat)
    | Sent(i: nat)
    | SendFailed(i: nat)

  function Without<T>(s: seq<T>, i: nat): seq<T>
    requires i < |s|
  {
    s[..i] + s[i + 1..]
  }

  /** Messages may be delivered in any order and again. */
  predicate Enabled(s: State, e: Event) {
    match e
    case Post(_) => true
    case Receive(number) => 1 <= number <= |s.log|
    case Generated(i, _) => i < |s.generating|
    case GenerationFailed(i) => i < |s.generating|
    case Sent(i) => i < |s.sending|
    case SendFailed(i) => i < |s.sending|
  }

  function Next(s: State, e: Event): State
    requires Enabled(s, e)
  {
    match e
    case Post(text) => s.(log := s.log + [Entry(text, 0)])
    case Receive(number) =>
      var text := s.log[number - 1].text;
      s.(memory := Notice(s.memory, number, text),
         generating := s.generating + if Answers(s.memory, number, text) then [number] else [])
    case Generated(i, reply) =>
      s.(memory := Remember(s.memory, reply), generating := Without(s.generating, i),
         sending := s.sending + [Sending(s.generating[i], reply)])
    case GenerationFailed(i) => s.(generating := Without(s.generating, i), failed := s.failed + [s.generating[i]])
    case Sent(i) => s.(log := s.log + [Entry(s.sending[i].reply, s.sending[i].number)], sending := Without(s.sending, i))
    case SendFailed(i) => s.(sending := Without(s.sending, i), failed := s.failed + [s.sending[i].number])
  }

  predicate ValidRun(run: seq<Event>)
    decreases |run|, 0
  {
    run == [] || (ValidRun(run[..|run| - 1]) && Enabled(After(run[..|run| - 1]), run[|run| - 1]))
  }

  function After(run: seq<Event>): State
    requires ValidRun(run)
    decreases |run|, 1
  {
    if run == [] then INITIAL else Next(After(run[..|run| - 1]), run[|run| - 1])
  }

  // ---------------------------------------------------------------- the window

  function Min(a: nat, b: nat): nat { if a < b then a else b }

  predicate Distinct(s: seq<string>) {
    forall i, j :: 0 <= i < j < |s| ==> s[i] != s[j]
  }

  /** The window holds the latest insertions, a hundred at most, none of them twice. */
  ghost predicate WindowInv(m: Memory) {
    && m.window == m.inserted[|m.inserted| - Min(|m.inserted|, WINDOW_SIZE)..]
    && Distinct(m.window)
  }

  lemma WindowOfMore(window: seq<string>, inserted: seq<string>, reply: string)
    requires window == inserted[|inserted| - Min(|inserted|, WINDOW_SIZE)..]
    ensures var grown, all := window + [reply], inserted + [reply];
            (if |grown| > WINDOW_SIZE then grown[1..] else grown) == all[|all| - Min(|all|, WINDOW_SIZE)..]
  {
  }

  lemma DistinctMore(window: seq<string>, reply: string)
    requires Distinct(window) && reply !in window
    ensures Distinct(window + [reply]) && Distinct((window + [reply])[1..])
  {
  }

  lemma RememberKeepsWindow(m: Memory, reply: string)
    requires WindowInv(m)
    ensures WindowInv(Remember(m, reply))
  {
    if reply !in m.window {
      WindowOfMore(m.window, m.inserted, reply);
      DistinctMore(m.window, reply);
    } else {
      assert m.window + [] == m.window && m.inserted + [] == m.inserted;
    }
  }

  /** Fewer than a hundred insertions came after the latest insertion of the text. */
  predicate InsertedLately(m: Memory, text: string) {
    exists i :: 0 <= i < |m.inserted| && i + 100 >= |m.inserted| && m.inserted[i] == text
  }

  lemma InWindowIff(m: Memory, text: string)
    requires WindowInv(m)
    ensures text in m.window <==> InsertedLately(m, text)
  {
  }

  // ---------------------------------------------------------------- what every run keeps

  ghost predicate Ascending(s: seq<nat>) {
    forall i, j :: 0 <= i < j < |s| ==> s[i] < s[j]
  }

  /** Every reply of the server entered the window once. */
  ghost predicate RepliesInserted(s: State) {
    && (forall e <- s.log :: e.answers != 0 ==> e.text in s.memory.inserted)
    && (forall t <- s.sending :: t.reply in s.memory.inserted)
  }

  ghost predicate AnsweredInv(s: State) {
    && s.memory.mark <= |s.log|
    && Ascending(s.memory.answered)
    && (forall n <- s.memory.answered :: 1 <= n <= s.memory.mark)
  }

  /** The numbers of the messages being answered. */
  function NumberList(sending: seq<Sending>): (r: seq<nat>)
    ensures |r| == |sending| && forall i :: 0 <= i < |r| ==> r[i] == sending[i].number
  {
    if sending == [] then [] else NumberList(sending[..|sending| - 1]) + [sending[|sending| - 1].number]
  }

  function Numbers(sending: seq<Sending>): multiset<nat> {
    multiset(NumberList(sending))
  }

  /** The numbers of the messages the replies on the topic answer. */
  function Replies(log: seq<Entry>): multiset<nat> {
    if log == [] then multiset{}
    else Replies(log[..|log| - 1]) + if log[|log| - 1].answers != 0 then multiset{log[|log| - 1].answers} else multiset{}
  }

  ghost predicate Balanced(answered: seq<nat>, generating: seq<nat>, sending: seq<Sending>, log: seq<Entry>, failed: seq<nat>) {
    multiset(answered) == multiset(generating) + Numbers(sending) + Replies(log) + multiset(failed)
  }

  /** Every message that went on to be answered is at an await, has its reply on the topic or failed. */
  ghost predicate Conserved(s: State) {
    Balanced(s.memory.answered, s.generating, s.sending, s.log, s.failed)
  }

  lemma MultisetWithout(s: seq<nat>, i: nat)
    requires i < |s|
    ensures multiset(s) == multiset(Without(s, i)) + multiset{s[i]}
  {
    assert s == s[..i] + [s[i]] + s[i + 1..];
  }

  lemma SendingMore(sending: seq<Sending>, t: Sending)
    ensures Numbers(sending + [t]) == Numbers(sending) + multiset{t.number}
  {
  }

  lemma NumbersWithout(s: seq<Sending>, i: nat)
    requires i < |s|
    ensures Numbers(s) == Numbers(Without(s, i)) + multiset{s[i].number}
  {
    assert NumberList(Without(s, i)) == Without(NumberList(s), i);
    MultisetWithout(NumberList(s), i);
  }

  lemma WindowStep(s: State, e: Event)
    requires Enabled(s, e) && WindowInv(s.memory)
    ensures WindowInv(Next(s, e).memory)
  {
    if e.Generated? { RememberKeepsWindow(s.memory, e.reply); }
  }

  lemma RememberInserts(m: Memory, reply: string)
    requires WindowInv(m)
    ensures reply in Remember(m, reply).inserted && forall x <- m.inserted :: x in Remember(m, reply).inserted
  {
    InWindowIff(m, reply);
  }

  lemma InsertedStep(s: State, e: Event)
    requires Enabled(s, e) && WindowInv(s.memory) && RepliesInserted(s)
    ensures RepliesInserted(Next(s, e))
  {
    match e
    case Generated(i, reply) => RememberInserts(s.memory, reply);
    case Sent(i) => assert s.sending[i] in s.sending;
    case _ =>
  }

  lemma NoticeAscends(m: Memory, number: nat, text: string)
    requires Ascending(m.answered) && (forall n <- m.answered :: 1 <= n <= m.mark)
    ensures var r := Notice(m, number, text); Ascending(r.answered) && forall n <- r.answered :: 1 <= n <= r.mark
  {
    if Answers(m, number, text) {
      forall i | 0 <= i < |m.answered| ensures m.answered[i] < number {
        assert m.answered[i] in m.answered;
      }
    } else {
      assert Notice(m, number, text).answered == m.answered;
    }
  }

  lemma AnsweredStep(s: State, e: Event)
    requires Enabled(s, e) && AnsweredInv(s)
    ensures AnsweredInv(Next(s, e))
  {
    if e.Receive? { NoticeAscends(s.memory, e.number, s.log[e.number - 1].text); }
  }

  lemma LogMore(log: seq<Entry>, e: Entry)
    ensures Replies(log + [e]) == Replies(log) + if e.answers != 0 then multiset{e.answers} else multiset{}
  {
  }

  /** Callbacks answer messages, which are numbered from one. */
  ghost predicate Positive(s: State) {
    (forall n <- s.generating :: n != 0) && (forall t <- s.sending :: t.number != 0)
  }

  lemma WithoutFewer<T>(s: seq<T>, i: nat)
    requires i < |s|
    ensures forall x <- Without(s, i) :: x in s
  {
  }

  lemma PositiveStep(s: State, e: Event)
    requires Enabled(s, e) && Positive(s)
    ensures Positive(Next(s, e))
  {
    match e
    case Post(_) =>
    case Receive(number) =>
    case Generated(i, _) =>
      WithoutFewer(s.generating, i);
      assert s.generating[i] in s.generating;
    case GenerationFailed(i) => WithoutFewer(s.generating, i);
    case Sent(i) => WithoutFewer(s.sending, i);
    case SendFailed(i) => WithoutFewer(s.sending, i);
  }

  lemma BalancedGenerated(answered: seq<nat>, generating: seq<nat>, sending: seq<Sending>, log: seq<Entry>, failed: seq<nat>, i: nat, reply: string)
    requires Balanced(answered, generating, sending, log, failed) && i < |generating|
    ensures Balanced(answered, Without(generating, i), sending + [Sending(generating[i], reply)], log, failed)
    ensures Balanced(answered, Without(generating, i), sending, log, failed + [generating[i]])
  {
    MultisetWithout(generating, i);
    SendingMore(sending, Sending(generating[i], reply));
  }

  lemma BalancedSent(answered: seq<nat>, generating: seq<nat>, sending: seq<Sending>, log: seq<Entry>, failed: seq<nat>, i: nat)
    requires Balanced(answered, generating, sending, log, failed) && i < |sending|
    ensures sending[i].number != 0 ==>
              Balanced(answered, generating, Without(sending, i), log + [Entry(sending[i].reply, sending[i].number)], failed)
    ensures Balanced(answered, generating, Without(sending, i), log, failed + [sending[i].number])
  {
    NumbersWithout(sending, i);
    LogMore(log, Entry(sending[i].reply, sending[i].number));
  }

  lemma BalancedReceive(answered: seq<nat>, generating: seq<nat>, sending: seq<Sending>, log: seq<Entry>, failed: seq<nat>, n: nat)
    requires Balanced(answered, generating, sending, log, failed)
    ensures Balanced(answered + [n], generating + [n], sending, log, failed)
  {
  }

  lemma ConservedReceive(s: State, number: nat)
    requires Enabled(s, Receive(number)) && Conserved(s)
    ensures Conserved(Next(s, Receive(number)))
  {
    if Answers(s.memory, number, s.log[number - 1].text) {
      BalancedReceive(s.memory.answered, s.generating, s.sending, s.log, s.failed, number);
    } else {
      assert s.generating + [] == s.generating && Notice(s.memory, number, s.log[number - 1].text).answered == s.memory.answered;
    }
  }

  lemma ConservedGeneration(s: State, e: Event)
    requires Enabled(s, e) && Conserved(s) && (e.Generated? || e.GenerationFailed?)
    ensures Conserved(Next(s, e))
  {
    BalancedGenerated(s.memory.answered, s.generating, s.sending, s.log, s.failed, e.i, if e.Generated? then e.reply else "");
  }

  lemma ConservedSending(s: State, e: Event)
    requires Enabled(s, e) && Conserved(s) && Positive(s) && (e.Sent? || e.SendFailed?)
    ensures Conserved(Next(s, e))
  {
    assert s.sending[e.i] in s.sending;
    BalancedSent(s.memory.answered, s.generating, s.sending, s.log, s.failed, e.i);
  }

  lemma ConservedStep(s: State, e: Event)
    requires Enabled(s, e) && Conserved(s) && Positive(s)
    ensures Conserved(Next(s, e))
  {
    match e
    case Post(text) => LogMore(s.log, Entry(text, 0));
    case Receive(number) => ConservedReceive(s, number);
    case Generated(_, _) => ConservedGeneration(s, e);
    case GenerationFailed(_) => ConservedGeneration(s, e);
    case Sent(_) => ConservedSending(s, e);
    case SendFailed(_) => ConservedSending(s, e);
  }

  ghost predicate Inv(s: State) {
    WindowInv(s.memory) && RepliesInserted(s) && AnsweredInv(s) && Conserved(s) && Positive(s)
  }

  lemma InvStep(s: State, e: Event)
    requires Enabled(s, e) && Inv(s)
    ensures Inv(Next(s, e))
  {
    WindowStep(s, e);
    InsertedStep(s, e);
    AnsweredStep(s, e);
    ConservedStep(s, e);
    PositiveStep(s, e);
  }

  lemma {:induction false} InvAlways(run: seq<Event>)
    requires ValidRun(run)
    ensures Inv(After(run))
  {
    if run != [] {
      InvAlways(run[..|run| - 1]);
      InvStep(After(run[..|run| - 1]), run[|run| - 1]);
    }
  }

  // ---------------------------------------------------------------- no message twice

  lemma {:induction false} AscendingOnce(s: seq<nat>, n: nat)
    requires Ascending(s)
    ensures multiset(s)[n] <= 1
  {
    if s != [] {
      var init := s[..|s| - 1];
      AscendingOnce(init, n);
      assert s == init + [s[|s| - 1]];
      if s[|s| - 1] == n {
        assert n !in init;
      }
    }
  }

  lemma {:induction false} ReplyCounted(log: seq<Entry>, i: nat)
    requires i < |log| && log[i].answers != 0
    ensures Replies(log)[log[i].answers] >= 1
  {
    if i < |log| - 1 { ReplyCounted(log[..|log| - 1], i); }
  }

  lemma {:induction false} RepliesCounted(log: seq<Entry>, i: nat, j: nat)
    requires i < j < |log| && log[i].answers == log[j].answers != 0
    ensures Replies(log)[log[i].answers] >= 2
  {
    if j == |log| - 1 { ReplyCounted(log[..|log| - 1], i); } else { RepliesCounted(log[..|log| - 1], i, j); }
  }

  /** No message of the topic gets two replies, however often and in whatever order messages are delivered. */
  lemma NoMessageAnsweredTwice(run: seq<Event>, i: nat, j: nat)
    requires ValidRun(run) && i < j < |After(run).log| && After(run).log[i].answers != 0
    ensures After(run).log[i].answers != After(run).log[j].answers
  {
    InvAlways(run);
    var s := After(run);
    if s.log[i].answers == s.log[j].answers {
      RepliesCounted(s.log, i, j);
      AscendingOnce(s.memory.answered, s.log[i].answers);
    }
  }

  // ---------------------------------------------------------------- no answer to itself

  predicate IsEcho(s: State, number: nat) {
    1 <= number <= |s.log| && s.log[number - 1].answers != 0
  }

  /**
   * A reply coming back to the server above its mark is answered exactly when a hundred or more other replies entered the
   * window after its text last did.
   */
  lemma EchoAnsweredIff(run: seq<Event>, number: nat)
    requires ValidRun(run) && IsEcho(After(run), number)
    ensures var s := After(run);
            && s.log[number - 1].text in s.memory.inserted
            && (Next(s, Receive(number)).memory.answered == s.memory.answered + [number] <==>
                  number > s.memory.mark && !InsertedLately(s.memory, s.log[number - 1].text))
  {
    InvAlways(run);
    EchoAnsweredNext(After(run), number);
  }

  lemma NoticeGrowsIff(m: Memory, number: nat, text: string)
    ensures Notice(m, number, text).answered == m.answered + [number] <==> Answers(m, number, text)
  {
    assert |m.answered + [number]| == |m.answered| + 1;
    assert m.answered + [] == m.answered;
  }

  lemma EchoAnsweredNext(s: State, number: nat)
    requires Inv(s) && IsEcho(s, number)
    ensures s.log[number - 1].text in s.memory.inserted
    ensures Next(s, Receive(number)).memory.answered == s.memory.answered + [number] <==>
              number > s.memory.mark && !InsertedLately(s.memory, s.log[number - 1].text)
  {
    assert s.log[number - 1] in s.log;
    InWindowIff(s.memory, s.log[number - 1].text);
    NoticeGrowsIff(s.memory, number, s.log[number - 1].text);
  }

  function Posts(log: seq<Entry>): nat {
    if log == [] then 0 else Posts(log[..|log| - 1]) + if log[|log| - 1].answers == 0 then 1 else 0
  }

  /** A message about to be received is not a reply that comes back above the mark after a hundred others. */
  predicate InTime(s: State, e: Event) {
    e.Receive? && IsEcho(s, e.number) && e.number > s.memory.mark ==> InsertedLately(s.memory, s.log[e.number - 1].text)
  }

  /** Every reply that comes back comes back in time. */
  predicate EchoesInTime(run: seq<Event>)
    requires ValidRun(run)
  {
    run == [] || (EchoesInTime(run[..|run| - 1]) && InTime(After(run[..|run| - 1]), run[|run| - 1]))
  }

  predicate OnlyOthersAnswered(s: State) {
    forall n <- s.memory.answered :: 1 <= n <= |s.log| && s.log[n - 1].answers == 0
  }

  /** No more messages of others were answered than there are up to the mark. */
  ghost predicate PostsSuffice(s: State) {
    s.memory.mark <= |s.log| && |s.memory.answered| <= Posts(s.log[..s.memory.mark])
  }

  lemma {:induction false} PostsGrow(log: seq<Entry>, a: nat, b: nat)
    requires a <= b <= |log|
    ensures Posts(log[..a]) <= Posts(log[..b])
    ensures a < b && log[b - 1].answers == 0 ==> Posts(log[..a]) < Posts(log[..b])
    decreases b
  {
    if a < b {
      assert log[..b][..b - 1] == log[..b - 1];
      PostsGrow(log, a, b - 1);
    }
  }

  /** Receiving a message keeps the server from answering itself exactly when it is in time. */
  lemma ReceiveIff(s: State, number: nat)
    requires Enabled(s, Receive(number)) && OnlyOthersAnswered(s) && WindowInv(s.memory)
    ensures OnlyOthersAnswered(Next(s, Receive(number))) <==> InTime(s, Receive(number))
  {
    var text := s.log[number - 1].text;
    InWindowIff(s.memory, text);
    var n := Next(s, Receive(number));
    if Answers(s.memory, number, text) {
      assert n.memory.answered == s.memory.answered + [number];
      assert number in n.memory.answered;
    } else {
      assert n.memory.answered == s.memory.answered;
    }
  }

  lemma ReceiveSuffices(s: State, number: nat)
    requires Enabled(s, Receive(number)) && PostsSuffice(s) && WindowInv(s.memory) && InTime(s, Receive(number))
    ensures PostsSuffice(Next(s, Receive(number)))
  {
    InWindowIff(s.memory, s.log[number - 1].text);
    if number > s.memory.mark { PostsGrow(s.log, s.memory.mark, number); }
  }

  lemma OtherStep(s: State, e: Event)
    requires Enabled(s, e) && !e.Receive? && (forall n <- s.memory.answered :: 1 <= n <= |s.log|)
    ensures OnlyOthersAnswered(Next(s, e)) <==> OnlyOthersAnswered(s)
    ensures PostsSuffice(s) ==> PostsSuffice(Next(s, e))
  {
    var n := Next(s, e);
    if s.memory.mark <= |s.log| { assert n.log[..s.memory.mark] == s.log[..s.memory.mark]; }
  }

  lemma SelfAnswerStays(s: State, number: nat)
    requires Enabled(s, Receive(number)) && !OnlyOthersAnswered(s)
    ensures !OnlyOthersAnswered(Next(s, Receive(number)))
  {
    var n :| n in s.memory.answered && !(1 <= n <= |s.log| && s.log[n - 1].answers == 0);
    assert n in Next(s, Receive(number)).memory.answered;
  }

  /** Over every run: the server has answered only messages of others exactly when every reply came back in time. */
  lemma {:induction false} AnswersOnlyOthersIff(run: seq<Event>)
    requires ValidRun(run)
    ensures OnlyOthersAnswered(After(run)) <==> EchoesInTime(run)
  {
    if run != [] {
      var init, e := run[..|run| - 1], run[|run| - 1];
      AnswersOnlyOthersIff(init);
      InvAlways(init);
      var s := After(init);
      if !e.Receive? {
        OtherStep(s, e);
      } else if OnlyOthersAnswered(s) {
        ReceiveIff(s, e.number);
      } else {
        SelfAnswerStays(s, e.number);
      }
    }
  }

  lemma {:induction false} PostsAlwaysSuffice(run: seq<Event>)
    requires ValidRun(run) && EchoesInTime(run)
    ensures PostsSuffice(After(run))
  {
    if run != [] {
      var init, e := run[..|run| - 1], run[|run| - 1];
      PostsAlwaysSuffice(init);
      InvAlways(init);
      if e.Receive? { ReceiveSuffices(After(init), e.number); } else { OtherStep(After(init), e); }
    }
  }

  /** Then there are never more replies on the topic than messages of others. */
  lemma RepliesBounded(run: seq<Event>)
    requires ValidRun(run) && EchoesInTime(run)
    ensures |Replies(After(run).log)| <= Posts(After(run).log)
  {
    InvAlways(run);
    PostsAlwaysSuffice(run);
    var s := After(run);
    assert |s.memory.answered| == |multiset(s.memory.answered)|;
    PostsGrow(s.log, s.memory.mark, |s.log|);
    assert s.log[..|s.log|] == s.log;
  }

  // ---------------------------------------------------------------- how long the window lasts

  lemma InsertedGrows(s: State, e: Event)
    requires Enabled(s, e)
    ensures |s.memory.inserted| <= |Next(s, e).memory.inserted|
  {
  }

  lemma FewAreInTime(s: State, e: Event)
    requires Inv(s) && |s.memory.inserted| <= 100
    ensures InTime(s, e)
  {
    if e.Receive? && IsEcho(s, e.number) {
      assert s.log[e.number - 1] in s.log;
      var i :| 0 <= i < |s.memory.inserted| && s.memory.inserted[i] == s.log[e.number - 1].text;
    }
  }

  /** Until a hundred and one replies have been remembered every reply comes back in time, whenever it does. */
  lemma {:induction false} FirstHundredInTime(run: seq<Event>)
    requires ValidRun(run) && |After(run).memory.inserted| <= 100
    ensures EchoesInTime(run)
  {
    if run != [] {
      var init := run[..|run| - 1];
      InsertedGrows(After(init), run[|run| - 1]);
      FirstHundredInTime(init);
      InvAlways(init);
      FewAreInTime(After(init), run[|run| - 1]);
    }
  }

  /** A text of k + 1 letters. */
  function Letters(k: nat): (text: string)
    ensures |text| == k + 1
  {
    if k == 0 then "a" else Letters(k - 1) + "a"
  }

  function Round(k: nat): seq<Event> {
    [Post("q"), Receive(k), Generated(0, Letters(k))]
  }

  function Rounds(n: nat): seq<Event> {
    if n == 0 then [] else Rounds(n - 1) + Round(n)
  }

  /** n messages were posted and received and n replies generated, none of which has been sent. */
  ghost predicate Flooded(s: State, n: nat) {
    && |s.log| == n && s.memory.mark == n && s.generating == []
    && (forall e <- s.log :: e == Entry("q", 0))
    && |s.sending| == n && (forall k :: 0 <= k < n ==> s.sending[k] == Sending(k + 1, Letters(k + 1)))
    && |s.memory.inserted| == n && (forall k :: 0 <= k < n ==> s.memory.inserted[k] == Letters(k + 1))
  }

  lemma FloodPosted(s: State, n: nat)
    requires Flooded(s, n) && WindowInv(s.memory)
    ensures var p := Next(s, Post("q"));
            Enabled(p, Receive(n + 1)) &&
            var r := Next(p, Receive(n + 1));
            r == s.(log := s.log + [Entry("q", 0)], generating := [n + 1],
                    memory := s.memory.(mark := n + 1, answered := s.memory.answered + [n + 1]))
  {
  }

  lemma FloodRemembered(m: Memory, n: nat)
    requires |m.inserted| == n && (forall k :: 0 <= k < n ==> m.inserted[k] == Letters(k + 1)) && WindowInv(m)
    ensures Remember(m, Letters(n + 1)).inserted == m.inserted + [Letters(n + 1)]
  {
  }

  lemma FloodMore(s: State, n: nat)
    requires Flooded(s, n) && WindowInv(s.memory)
    ensures var p := Next(s, Post("q"));
            Enabled(p, Receive(n + 1)) &&
            var r := Next(p, Receive(n + 1));
            Enabled(r, Generated(0, Letters(n + 1))) && Flooded(Next(r, Generated(0, Letters(n + 1))), n + 1)
  {
    FloodPosted(s, n);
    var r := Next(Next(s, Post("q")), Receive(n + 1));
    FloodRemembered(r.memory, n);
  }

  lemma ThreeMore(run: seq<Event>, a: Event, b: Event, c: Event)
    requires ValidRun(run)
    requires Enabled(After(run), a) && Enabled(Next(After(run), a), b) && Enabled(Next(Next(After(run), a), b), c)
    ensures ValidRun(run + [a, b, c]) && After(run + [a, b, c]) == Next(Next(Next(After(run), a), b), c)
  {
    OneMore(run, a);
    OneMore(run + [a], b);
    OneMore(run + [a] + [b], c);
    assert run + [a, b, c] == run + [a] + [b] + [c];
  }

  lemma OneMore(run: seq<Event>, e: Event)
    requires ValidRun(run) && Enabled(After(run), e)
    ensures ValidRun(run + [e]) && After(run + [e]) == Next(After(run), e)
  {
  }

  lemma {:induction false} RoundsFlood(n: nat)
    ensures ValidRun(Rounds(n)) && Flooded(After(Rounds(n)), n)
  {
    if n != 0 {
      RoundsFlood(n - 1);
      InvAlways(Rounds(n - 1));
      FloodMore(After(Rounds(n - 1)), n - 1);
      ThreeMore(Rounds(n - 1), Post("q"), Receive(n), Generated(0, Letters(n)));
    }
  }

  /** After a hundred and one replies the first of them, sent only now, is answered when it comes back. */
  lemma AnswersItself()
    ensures var run := Rounds(101) + [Sent(0)];
            ValidRun(run) &&
            var s, number := After(run), 102;
            IsEcho(s, number) && Next(s, Receive(number)).memory.answered == s.memory.answered + [number]
  {
    var n := 101;
    RoundsFlood(n);
    OneMore(Rounds(n), Sent(0));
    EchoAnsweredIff(Rounds(n) + [Sent(0)], n + 1);
  }
}
