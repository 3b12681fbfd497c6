/** The conversation history of agent/mcp-openai.js: a window of twenty entries on what was said since it was cleared. */
module Conversation {
  import opened Common

  const HISTORY_LIMIT := 20

  datatype Role = User | Assistant

  datatype Turn = Turn(role: Role, content: string)

  function Latest(turns: seq<Turn>, n: nat): (r: seq<Turn>)
    ensures |r| == if |turns| > n then n else |turns|
  {
    if |turns| > n then turns[|turns| - n..] else turns
  }

  /** Array.prototype.pop, which leaves an empty array empty. */
  function Popped(turns: seq<Turn>): seq<Turn> {
    if turns == [] then [] else turns[..|turns| - 1]
  }

  /** In any order, since several callers share one client. */
  datatype Event =
    | Responded(userMessage: string, reply: string)
    | FollowedUp(reply: string)
    | Failed
    | Cleared

  /** What an event does to the window. */
  function Step(history: seq<Turn>, e: Event): seq<Turn> {
    match e
    case Responded(u, r) => Latest(history + [Turn(User, u), Turn(Assistant, r)], HISTORY_LIMIT)
    case FollowedUp(r) => Popped(history) + [Turn(Assistant, r)]
    case Failed => history
    case Cleared => []
  }

  /** What an event does to everything said since the last clearing. */
  function Said(transcript: seq<Turn>, e: Event): seq<Turn> {
    match e
    case Responded(u, r) => transcript + [Turn(User, u), Turn(Assistant, r)]
    case FollowedUp(r) => Popped(transcript) + [Turn(Assistant, r)]
    case Failed => transcript
    case Cleared => []
  }

  class Client {
    var conversationHistory: seq<Turn>

    constructor ()
      ensures conversationHistory == []
    {
      conversationHistory := [];
    }

    /** The messages a response is generated from, after the system message. */
    function Prompt(userMessage: string): seq<Turn>
      reads this
    {
      conversationHistory + [Turn(User, userMessage)]
    }

    /** The last exchange is left out of the messages a follow-up is generated from. */
    function FollowUpPrompt(userMessage: string): seq<Turn>
      reads this
    {
      (if |conversationHistory| < 2 then [] else conversationHistory[..|conversationHistory| - 2]) + [Turn(User, userMessage)]
    }

    /** generateResponse from where its request to the model has ended; None when it failed. */
    method ResponseArrived(userMessage: string, completion: Option<string>) returns (response: Result<string>)
      modifies this
      ensures response.Success? == completion.Some? && (completion.Some? ==> response.value == completion.value)
      ensures conversationHistory ==
              Step(old(conversationHistory), if completion.Some? then Responded(userMessage, completion.value) else Failed)
    {
      if completion.None? {
        return Failure("Error generating response");
      }
      conversationHistory := conversationHistory + [Turn(User, userMessage)];
      conversationHistory := conversationHistory + [Turn(Assistant, completion.value)];
      assert conversationHistory == old(conversationHistory) + [Turn(User, userMessage), Turn(Assistant, completion.value)];
      if |conversationHistory| > HISTORY_LIMIT {
        conversationHistory := conversationHistory[|conversationHistory| - HISTORY_LIMIT..];
      }
      return Success(completion.value);
    }

    /** generateFollowUp from where its request to the model has ended. */
    method FollowUpArrived(completion: Option<string>) returns (response: Result<string>)
      modifies this
      ensures response.Success? == completion.Some? && (completion.Some? ==> response.value == completion.value)
      ensures conversationHistory ==
              Step(old(conversationHistory), if completion.Some? then FollowedUp(completion.value) else Failed)
    {
      if completion.None? {
        return Failure("Error generating follow-up response");
      }
      if |conversationHistory| > 0 {
        conversationHistory := conversationHistory[..|conversationHistory| - 1];
      }
      conversationHistory := conversationHistory + [Turn(Assistant, completion.value)];
      return Success(completion.value);
    }

    method ClearHistory()
      modifies this
      ensures conversationHistory == []
    {
      conversationHistory := [];
    }
  }

  // ---------------------------------------------------------------- runs

  function History(run: seq<Event>): seq<Turn> {
    if run == [] then [] else Step(History(run[..|run| - 1]), run[|run| - 1])
  }

  function Transcript(run: seq<Event>): seq<Turn> {
    if run == [] then [] else Said(Transcript(run[..|run| - 1]), run[|run| - 1])
  }

  // ---------------------------------------------------------------- the window

  lemma StepOfLatest(transcript: seq<Turn>, e: Event)
    ensures Step(Latest(transcript, 20), e) == Latest(Said(transcript, e), 20)
  {
  }

  /** Over every run the history is the last twenty entries of what was said since the last clearing. */
  lemma {:induction false} HistoryIsLatest(run: seq<Event>)
    ensures History(run) == Latest(Transcript(run), 20)
  {
    if run != [] {
      HistoryIsLatest(run[..|run| - 1]);
      StepOfLatest(Transcript(run[..|run| - 1]), run[|run| - 1]);
    }
  }

  /** Users and the assistant take turns, the user first and the assistant last. */
  predicate Alternates(turns: seq<Turn>) {
    |turns| % 2 == 0 && forall i :: 0 <= i < |turns| ==> turns[i].role == (if i % 2 == 0 then User else Assistant)
  }

  /** What is left after a follow-up to nothing: an answer without a question, then exchanges. */
  predicate Headless(turns: seq<Turn>) {
    |turns| % 2 == 1 && forall i :: 0 <= i < |turns| ==> turns[i].role == (if i % 2 == 1 then User else Assistant)
  }

  /** Since the last clearing no follow-up came before the first response. */
  predicate Proper(run: seq<Event>) {
    if run == [] then true
    else
      match run[|run| - 1]
      case Cleared => true
      case FollowedUp(_) => Proper(run[..|run| - 1]) && Transcript(run[..|run| - 1]) != []
      case _ => Proper(run[..|run| - 1])
  }

  lemma {:induction false} TranscriptShape(run: seq<Event>)
    ensures if Proper(run) then Alternates(Transcript(run)) else Headless(Transcript(run))
  {
    if run != [] { TranscriptShape(run[..|run| - 1]); }
  }

  lemma LatestAlternates(t: seq<Turn>)
    requires |t| > 20 && (Alternates(t) || Headless(t))
    ensures Alternates(Latest(t, 20))
  {
  }

  lemma HeadlessDoesNotAlternate(t: seq<Turn>)
    requires Headless(t)
    ensures !Alternates(t)
  {
  }

  /** The history alternates exactly if follow-ups came only after responses, or it has forgotten that one did not. */
  lemma HistoryAlternatesIff(run: seq<Event>)
    ensures Alternates(History(run)) <==> Proper(run) || |Transcript(run)| > 20
  {
    HistoryIsLatest(run);
    TranscriptShape(run);
    if |Transcript(run)| > 20 {
      LatestAlternates(Transcript(run));
    } else if !Proper(run) {
      HeadlessDoesNotAlternate(Transcript(run));
    }
  }

  // ---------------------------------------------------------------- follow-ups

  lemma ResponseAppends(run: seq<Event>, e: Event)
    ensures Transcript(run + [e]) == Said(Transcript(run), e)
  {
  }

  /** A follow-up right after a response is generated from at most the eighteen entries before the exchange it completes and
      the question itself. */
  lemma FollowUpSeesWhatCameBefore(client: Client, run: seq<Event>, u: string, r: string)
    requires client.conversationHistory == History(run + [Responded(u, r)])
    ensures client.FollowUpPrompt(u) == Latest(Transcript(run), 18) + [Turn(User, u)]
  {
    HistoryIsLatest(run + [Responded(u, r)]);
    ResponseAppends(run, Responded(u, r));
    var t := Transcript(run) + [Turn(User, u), Turn(Assistant, r)];
    var h := Latest(t, 20);
    assert h[..|h| - 2] == Latest(Transcript(run), 18);
  }

  /** A response is generated from the latest twenty entries and the question. */
  lemma ResponseSeesLatest(client: Client, run: seq<Event>, u: string)
    requires client.conversationHistory == History(run)
    ensures client.Prompt(u) == Latest(Transcript(run), 20) + [Turn(User, u)]
  {
    HistoryIsLatest(run);
  }

  predicate Quiet(between: seq<Event>) {
    forall e <- between :: !e.Responded?
  }

  /** Without a clearing in between, what follows a response only grows, and grows exactly when another response arrives. */
  lemma {:induction false} AfterResponse(run: seq<Event>, u: string, r: string, between: seq<Event>)
    requires forall e <- between :: !e.Cleared?
    ensures var t := Transcript(run + [Responded(u, r)] + between);
            if Quiet(between) then |t| == |Transcript(run)| + 2 && t[..|t| - 1] == Transcript(run) + [Turn(User, u)]
            else |t| > |Transcript(run)| + 2
  {
    var before := run + [Responded(u, r)];
    if between == [] {
      assert before + [] == before;
      ResponseAppends(run, Responded(u, r));
      assert Transcript(before)[..|Transcript(before)| - 1] == Transcript(run) + [Turn(User, u)];
    } else {
      var init, e := between[..|between| - 1], between[|between| - 1];
      assert between == init + [e];
      AfterResponse(run, u, r, init);
      assert before + between == before + init + [e];
      ResponseAppends(before + init, e);
      assert e in between;
    }
  }

  /** A follow-up completes its own exchange exactly when no other response arrived in between. */
  lemma FollowUpCompletesOwnIff(run: seq<Event>, u: string, r: string, between: seq<Event>, f: string)
    requires forall e <- between :: !e.Cleared?
    ensures Transcript(run + [Responded(u, r)] + between + [FollowedUp(f)]) == Transcript(run) + [Turn(User, u), Turn(Assistant, f)]
      <==> Quiet(between)
  {
    AfterResponse(run, u, r, between);
    ResponseAppends(run + [Responded(u, r)] + between, FollowedUp(f));
    assert Transcript(run) + [Turn(User, u), Turn(Assistant, f)] == Transcript(run) + [Turn(User, u)] + [Turn(Assistant, f)];
  }
}
