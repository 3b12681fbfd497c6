/**
 * The topic subscriber of agent-framework/hcs-api.js: a sequence mark and a bounded window of its own replies keep the
 * server from answering a message twice and from answering itself.
 */
module Echo {

  const WINDOW_SIZE := 100

  /** What the callback of one subscription remembers. inserted and answered are history: every reply that entered the
      window, and the sequence numbers of the messages that went on to be answered. */
  datatype Memory = Memory(mark: nat, window: seq<string>, inserted: seq<string>, answered: seq<nat>)

  const EMPTY := Memory(0, [], [], [])

  /** serverSentMessages.add(reply) and the deletion of its first element when it has grown too large. */
  function Remember(m: Memory, reply: string): Memory {
    var isNew := reply !in m.window;
    var grown := m.window + if isNew then [reply] else [];
    m.(window := if |grown| > WINDOW_SIZE then grown[1..] else grown,
       inserted := m.inserted + if isNew then [reply] else [])
  }

  predicate Answers(m: Memory, number: nat, text: string) {
    number > m.mark && text !in m.window
  }

  /** The callback up to its first await. */
  function Notice(m: Memory, number: nat, text: string): Memory {
    if number <= m.mark then m
    else m.(mark := number, answered := m.answered + if text in m.window then [] else [number])
  }

  class Subscriber {
    var lastProcessedSequence: nat
    var serverSentMessages: seq<string>
    ghost var inserted: seq<string>
    ghost var answered: seq<nat>

    ghost function View(): Memory
      reads this
    {
      Memory(lastProcessedSequence, serverSentMessages, inserted, answered)
    }

    constructor ()
      ensures View() == EMPTY
    {
      lastProcessedSequence, serverSentMessages := 0, [];
      inserted, answered := [], [];
    }

    /** A message arrives; answer says whether the callback goes on to ask the model. */
    method OnMessage(sequenceNumber: nat, userMessage: string) returns (answer: bool)
      modifies this
      ensures answer == Answers(old(View()), sequenceNumber, userMessage)
      ensures View() == Notice(old(View()), sequenceNumber, userMessage)
    {
      if sequenceNumber <= lastProcessedSequence {
        return false;
      }
      lastProcessedSequence := sequenceNumber;
      if userMessage in serverSentMessages {
        return false;
      }
      answered := answered + [sequenceNumber];
      return true;
    }

    /** The model has answered: the reply is remembered before it is sent. */
    method OnReply(reply: string)
      modifies this
      ensures View() == Remember(old(View()), reply)
    {
      if reply !in serverSentMessages {
        serverSentMessages := serverSentMessages + [reply];
        inserted := inserted + [reply];
      }
      if |serverSentMessages| > WINDOW_SIZE {
        serverSentMessages := serverSentMessages[1..];
      }
    }
  }
}
