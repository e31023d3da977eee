/*
 * A bounded chat transcript (class ChatContext of context.py).
 *
 * The transcript is a list of strings whose entry 0 is the preamble. Every
 * user message adds two entries, the prefixed user text and an assistant
 * placeholder, and the token budget is then enforced by popping entry 1 until
 * the joined transcript fits. The token counter is the encoder handed to the
 * constructor; it is kept abstract as a function from text to token count and
 * nothing is assumed about it (not monotone, not additive).
 *
 * The model keeps the code's fragilities: `index` is not adjusted when
 * entries are evicted, nor when the transcript is reset, and popping entry 1
 * of a transcript that holds only the preamble is an IndexError.
 */
module Context {

  /** The outcome of an operation: normal return or Python's IndexError. */
  datatype Status = Ok | IndexError

  /** Prefix of the entry that holds a user message. */
  const UserPrefix: string := " USER: "
  /** The placeholder entry that later receives the assistant's output. */
  const AssistantTag: string := " ASSISTANT:"

  /** `"".join(entries)`: the entries concatenated in order. */
  function Join(entries: seq<string>): string
  {
    if entries == [] then "" else entries[0] + Join(entries[1..])
  }

  /** Joining distributes over concatenation of entry lists. */
  lemma {:induction false} JoinAppend(a: seq<string>, b: seq<string>)
    ensures Join(a + b) == Join(a) + Join(b)
  {
    if a == [] {
      assert a + b == b;
    } else {
      assert (a + b)[1..] == a[1..] + b;
      JoinAppend(a[1..], b);
    }
  }

  /** Every entry appears in the joined text, after all earlier entries and
      before all later ones. */
  lemma {:induction false} JoinAt(entries: seq<string>, i: nat)
    requires i < |entries|
    ensures Join(entries) == Join(entries[..i]) + entries[i] + Join(entries[i + 1..])
  {
    assert entries == entries[..i] + ([entries[i]] + entries[i + 1..]);
    JoinAppend(entries[..i], [entries[i]] + entries[i + 1..]);
    JoinAppend([entries[i]], entries[i + 1..]);
    assert Join([entries[i]]) == entries[i] + Join([]);
  }

  /** The joined transcript costs at most `budget` tokens. */
  predicate Fits(entries: seq<string>, cost: string -> nat, budget: int)
  {
    cost(Join(entries)) <= budget
  }

  /** The transcript after `n` pops of entry 1: the preamble, then the entries
      that follow the `n` oldest non-preamble ones. */
  function Evicted(entries: seq<string>, n: nat): seq<string>
    requires n < |entries|
  {
    entries[..1] + entries[n + 1..]
  }

  /** What the eviction loop of `prune_context` leaves behind: while the
      joined transcript is over budget, pop entry 1; a pop on a transcript of
      fewer than two entries raises, leaving the transcript as it is. The
      result keeps the preamble and a suffix of the other entries, in their
      original order. */
  function Pruned(entries: seq<string>, cost: string -> nat, budget: int): (r: seq<string>)
    ensures |r| <= |entries|
    ensures |entries| >= 1 ==> |r| >= 1 && r == Evicted(entries, |entries| - |r|)
    decreases |entries|
  {
    if cost(Join(entries)) <= budget || |entries| < 2 then entries
    else
      var popped := entries[..1] + entries[2..];
      var r := Pruned(popped, cost, budget);
      assert Evicted(popped, |popped| - |r|) == Evicted(entries, |entries| - |r|);
      r
  }

  /** When pruning ends, the transcript is within budget, or only the preamble
      remains and it alone is over budget (the case where `pop(1)` raises). */
  lemma {:induction false} PrunedWithinBudget(entries: seq<string>, cost: string -> nat, budget: int)
    requires |entries| >= 1
    ensures Fits(Pruned(entries, cost, budget), cost, budget) ||
            (Pruned(entries, cost, budget) == [entries[0]] && cost(entries[0]) > budget)
  {
    if cost(Join(entries)) <= budget || |entries| < 2 {
      assert Pruned(entries, cost, budget) == entries;
      if !Fits(entries, cost, budget) {
        assert entries == [entries[0]];
        assert Join(entries) == entries[0] + Join([]);
        assert entries[0] + Join([]) == entries[0];
      }
    } else {
      PrunedWithinBudget(entries[..1] + entries[2..], cost, budget);
    }
  }

  /** Pruning evicts no entry that was not needed: every shorter run of pops
      still left the transcript over budget. In particular a transcript that
      is already within budget is left unchanged. */
  lemma {:induction false} PrunedEvictsOnlyWhenOver(entries: seq<string>, cost: string -> nat, budget: int)
    requires |entries| >= 1
    ensures forall n :: 0 <= n < |entries| - |Pruned(entries, cost, budget)| ==>
              !Fits(Evicted(entries, n), cost, budget)
    ensures Fits(entries, cost, budget) ==> Pruned(entries, cost, budget) == entries
  {
    if cost(Join(entries)) <= budget || |entries| < 2 {
    } else {
      var popped := entries[..1] + entries[2..];
      PrunedEvictsOnlyWhenOver(popped, cost, budget);
      forall n | 0 <= n < |entries| - |Pruned(entries, cost, budget)|
        ensures !Fits(Evicted(entries, n), cost, budget)
      {
        if n == 0 {
          assert Evicted(entries, 0) == entries;
        } else {
          assert Evicted(entries, n) == Evicted(popped, n - 1);
        }
      }
    }
  }

  /** Pruning ends within budget exactly when some number of pops of the
      oldest entries would bring the transcript within budget. */
  lemma PrunedFitsIff(entries: seq<string>, cost: string -> nat, budget: int)
    requires |entries| >= 1
    ensures Fits(Pruned(entries, cost, budget), cost, budget) <==>
            exists n :: 0 <= n < |entries| && Fits(Evicted(entries, n), cost, budget)
  {
    var r := Pruned(entries, cost, budget);
    PrunedWithinBudget(entries, cost, budget);
    PrunedEvictsOnlyWhenOver(entries, cost, budget);
    if Fits(r, cost, budget) {
      assert Fits(Evicted(entries, |entries| - |r|), cost, budget);
    } else {
      assert |r| == 1;
      forall n | 0 <= n < |entries|
        ensures !Fits(Evicted(entries, n), cost, budget)
      {
        if n == |entries| - 1 {
          assert Evicted(entries, n) == r;
        }
      }
    }
  }

  /** Pruning a pruned transcript changes nothing. */
  lemma PrunedIdempotent(entries: seq<string>, cost: string -> nat, budget: int)
    ensures Pruned(Pruned(entries, cost, budget), cost, budget) == Pruned(entries, cost, budget)
  {
    if |entries| >= 1 {
      PrunedWithinBudget(entries, cost, budget);
    }
  }

  /** `entries[i] += output`: the entry at `i` gets `output` appended and
      every other entry is unchanged. */
  function OutputAt(entries: seq<string>, i: nat, output: string): (r: seq<string>)
    requires i < |entries|
    ensures |r| == |entries| && r[i] == entries[i] + output
    ensures forall j :: 0 <= j < |entries| && j != i ==> r[j] == entries[j]
  {
    entries[i := entries[i] + output]
  }

  /** Streaming output in two chunks gives the same transcript as one chunk
      holding both. */
  lemma OutputChunks(entries: seq<string>, i: nat, a: string, b: string)
    requires i < |entries|
    ensures OutputAt(OutputAt(entries, i, a), i, b) == OutputAt(entries, i, a + b)
  {
    assert (entries[i] + a) + b == entries[i] + (a + b);
  }

  class ChatContext {
    /** The transcript; entry 0 is the preamble. */
    var context: seq<string>
    /** The preamble that `ResetContext` restores. */
    var initialContext: string
    /** Token count of a text: the length of the encoder's encoding of it. */
    const encoder: string -> nat
    /** The token budget of the joined transcript. */
    const maxLength: int
    /** Position of the entry that receives the assistant's output. */
    var index: nat

    /** The preamble is always there, and `index` never lags behind the last
        entry: it only grows by two when two entries are added, and eviction
        and reset only shrink the transcript. */
    ghost predicate Valid()
      reads this
    {
      1 <= |context| <= index + 1
    }

    constructor (initialContext: string, encoder: string -> nat, maxLength: int)
      ensures Valid()
      ensures context == [initialContext] && index == 0
      ensures this.initialContext == initialContext
      ensures this.encoder == encoder && this.maxLength == maxLength
    {
      context := [initialContext];
      this.initialContext := initialContext;
      this.encoder := encoder;
      this.maxLength := maxLength;
      index := 0;
    }

    /** Appends a user entry and an assistant placeholder, moves `index` two
        entries on, then prunes. `index` then addresses an entry only when no
        entry was evicted and it addressed the last entry before. */
    method AddUserInput(userInput: string) returns (status: Status)
      requires Valid()
      modifies this`context, this`index
      ensures Valid()
      ensures index == old(index) + 2
      ensures context == Pruned(old(context) + [UserPrefix + userInput, AssistantTag], encoder, maxLength)
      ensures status == Ok <==> Fits(context, encoder, maxLength)
      ensures index < |context| <==> |context| == |old(context)| + 2 && old(index) + 1 == |old(context)|
    {
      context := context + [UserPrefix + userInput];
      context := context + [AssistantTag];
      assert context == old(context) + [UserPrefix + userInput, AssistantTag];
      index := index + 2;
      status := PruneContext();
    }

    /** Appends `output` to the entry at `index`. Since `index` never lags
        behind, that is the last entry when it exists; otherwise IndexError. */
    method AddAssistantOutput(output: string) returns (status: Status)
      requires Valid()
      modifies this`context
      ensures Valid()
      ensures status == Ok <==> index < |old(context)|
      ensures status == Ok ==> index == |context| - 1 && context == OutputAt(old(context), index, output)
      ensures status == IndexError ==> context == old(context)
    {
      if index < |context| {
        context := context[index := context[index] + output];
        status := Ok;
      } else {
        status := IndexError;
      }
    }

    /** The eviction loop: pops entry 1 while the joined transcript is over
        budget; raises IndexError when only the preamble is left to pop from. */
    method PruneContext() returns (status: Status)
      requires Valid()
      modifies this`context
      ensures Valid()
      ensures context == Pruned(old(context), encoder, maxLength)
      ensures status == Ok <==> Fits(context, encoder, maxLength)
    {
      while encoder(Join(context)) > maxLength
        invariant 1 <= |context| <= |old(context)|
        invariant Pruned(context, encoder, maxLength) == Pruned(old(context), encoder, maxLength)
        decreases |context|
      {
        if |context| < 2 {
          status := IndexError;
          return;
        }
        context := context[..1] + context[2..];
      }
      status := Ok;
    }

    /** The transcript as one string, the preamble first. */
    function GetContextStr(): (s: string)
      reads this
      requires Valid()
      ensures |context[0]| <= |s| && s[..|context[0]|] == context[0]
    {
      Join(context)
    }

    /** Drops every entry but the preamble; `index` is left as it was. */
    method ResetContext()
      requires Valid()
      modifies this`context
      ensures Valid()
      ensures context == [initialContext]
    {
      context := [initialContext];
    }

    /** Replaces the preamble and drops every other entry; `index` is left as
        it was. */
    method SetInitialContext(newContext: string)
      requires Valid()
      modifies this`context, this`initialContext
      ensures Valid()
      ensures context == [newContext] && initialContext == newContext
    {
      context := [newContext];
      initialContext := newContext;
    }
  }

  /** Resetting twice leaves the same state as resetting once: the old
      preamble alone, with the preamble and `index` untouched. */
  method ResetTwice(chat: ChatContext)
    requires chat.Valid()
    modifies chat`context
    ensures chat.Valid() && chat.context == [old(chat.initialContext)]
  {
    chat.ResetContext();
    var once := chat.context;
    chat.ResetContext();
    assert chat.context == once;
  }

  /** After `set_initial_context(n)`, one user message, one assistant output
      and a reset, the rendered transcript is exactly `n`. */
  method NewPreambleSurvivesReset(preamble: string, encoder: string -> nat, maxLength: int,
                                  n: string, u: string, o: string) returns (rendered: string)
    ensures rendered == n
  {
    var chat := new ChatContext(preamble, encoder, maxLength);
    chat.SetInitialContext(n);
    var added := chat.AddUserInput(u);
    var streamed := chat.AddAssistantOutput(o);
    chat.ResetContext();
    rendered := chat.GetContextStr();
    assert Join([n]) == n + Join([]);
  }

  /** Because reset leaves `index` where it was, the assistant's output after
      one exchange, a reset and a new user message is always an IndexError,
      whatever the texts, the encoder and the budget. */
  method ResetLeavesIndexBehind(preamble: string, encoder: string -> nat, maxLength: int,
                                u1: string, u2: string, o: string) returns (status: Status)
    ensures status == IndexError
  {
    var chat := new ChatContext(preamble, encoder, maxLength);
    var s1 := chat.AddUserInput(u1);
    chat.ResetContext();
    var s2 := chat.AddUserInput(u2);
    status := chat.AddAssistantOutput(o);
  }

  /** Character count, a concrete encoder for the scenario below. */
  function CharCount(s: string): nat
  {
    |s|
  }

  /** Because eviction leaves `index` where it was, a message that makes the
      transcript evict loses the assistant's output: with one token per
      character and a budget of 20, the preamble "P" and one exchange fit
      (1 + 8 + 11), the second message evicts, and the output raises. */
  method EvictionLeavesIndexBehind() returns (status: Status)
    ensures status == IndexError
  {
    var chat := new ChatContext("P", CharCount, 20);
    var first := [UserPrefix + "a", AssistantTag];
    JoinAppend(["P"], first);
    assert Join(["P"]) == "P" + Join([]);
    assert Join(first) == first[0] + Join([AssistantTag]);
    assert Join([AssistantTag]) == AssistantTag + Join([]);
    assert |Join(["P"] + first)| == 20;
    var s1 := chat.AddUserInput("a");
    assert chat.context == ["P"] + first;
    var second := [UserPrefix + "c", AssistantTag];
    JoinAppend(["P"] + first, second);
    assert Join(second) == second[0] + Join([AssistantTag]);
    assert |Join(chat.context + second)| == 39;
    var s2 := chat.AddUserInput("c");
    status := chat.AddAssistantOutput("hi");
  }
}
