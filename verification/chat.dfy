/**
 * The chat service's bulk purge. The channel is modelled by whether it is
 * a direct-message channel and by its message history, newest first; the
 * Discord calls it makes (one fetch, at most one bulk delete) are recorded
 * in order, and their failures and the count the bulk delete reports are
 * inputs.
 */
module Chat {
  import opened Common

  /** The most messages one fetch returns. */
  const FetchLimit: nat := 100

  /** The amounts the purge command lets a user ask for. */
  const MinAmount: int := 1
  const MaxAmount: int := 100

  datatype Message = Message(id: string, authorId: string)

  /** The user whose messages are purged. */
  datatype TargetUser = TargetUser(id: string, tag: string)

  datatype Channel = Channel(id: string, isDm: bool, history: seq<Message>)

  /** A call made on the channel. */
  datatype ChannelRequest = Fetch(limit: nat) | BulkDelete(messages: seq<Message>, filterOld: bool)

  function Min(a: int, b: int): int {
    if a < b then a else b
  }

  /** `channel.messages.fetch({ limit: 100 })`: the newest messages, at most the limit. */
  function Fetched(history: seq<Message>): (fetched: seq<Message>)
    ensures |fetched| == Min(FetchLimit, |history|)
    ensures fetched == history[..|fetched|]
  {
    history[..Min(FetchLimit, |history|)]
  }

  /** `messages.filter(m => m.author.id === id)`: the messages by one author, in order. */
  function ByAuthor(ms: seq<Message>, id: string): (r: seq<Message>)
    ensures |r| <= |ms|
    ensures forall m :: m in r <==> m in ms && m.authorId == id
  {
    if |ms| == 0 then []
    else (if ms[0].authorId == id then [ms[0]] else []) + ByAuthor(ms[1..], id)
  }

  /**
   * The filter keeps order: filtering two runs of messages one after the
   * other gives the two filtered runs one after the other.
   */
  lemma {:induction false} ByAuthorConcat(a: seq<Message>, b: seq<Message>, id: string)
    ensures ByAuthor(a + b, id) == ByAuthor(a, id) + ByAuthor(b, id)
  {
    if |a| == 0 {
      assert a + b == b;
    } else {
      assert (a + b)[1..] == a[1..] + b;
      ByAuthorConcat(a[1..], b, id);
    }
  }

  /** The messages eligible for deletion: the target's, or every fetched message when there is no target. */
  function Candidates(fetched: seq<Message>, target: Option<TargetUser>): (r: seq<Message>)
    ensures |r| <= |fetched|
    ensures forall m :: m in r <==> m in fetched && (target.Some? ==> m.authorId == target.value.id)
  {
    match target
    case None => fetched
    case Some(u) => ByAuthor(fetched, u.id)
  }

  /**
   * `Array.prototype.slice(0, end)` for an integer `end`: a prefix; a
   * negative end counts back from the length.
   */
  function SliceTo<T>(s: seq<T>, end: int): (r: seq<T>)
    ensures |r| <= |s| && r == s[..|r|]
    ensures 0 <= end ==> |r| == Min(end, |s|)
    ensures end < 0 ==> |r| == (if |s| + end < 0 then 0 else |s| + end)
  {
    if end < 0 then s[..(if |s| + end < 0 then 0 else |s| + end)]
    else s[..Min(end, |s|)]
  }

  /**
   * The messages handed to the bulk delete: the first `amount` candidates in
   * fetch order; whatever the amount, at most a hundred.
   */
  function Selection(history: seq<Message>, target: Option<TargetUser>, amount: int): (sel: seq<Message>)
    ensures |sel| <= FetchLimit
  {
    SliceTo(Candidates(Fetched(history), target), amount)
  }

  /**
   * For the amounts the command allows, the selection is the first `amount`
   * candidates, or all of them when there are fewer; every selected message
   * is among the newest hundred and, with a target, is the target's.
   */
  lemma {:induction false} SelectionShape(history: seq<Message>, target: Option<TargetUser>, amount: int)
    requires MinAmount <= amount <= MaxAmount
    ensures var cand := Candidates(Fetched(history), target);
      var sel := Selection(history, target, amount);
      |sel| == Min(amount, |cand|) && sel == cand[..|sel|]
    ensures forall m :: m in Selection(history, target, amount) ==>
      m in history[..Min(FetchLimit, |history|)] && (target.Some? ==> m.authorId == target.value.id)
  {
    var cand := Candidates(Fetched(history), target);
    var sel := Selection(history, target, amount);
    forall m | m in sel
      ensures m in cand
    {
      var i :| 0 <= i < |sel| && sel[i] == m;
      assert cand[i] == m;
    }
  }

  /**
   * The selection is empty exactly when no fetched message qualifies, for
   * every amount the command allows.
   */
  lemma {:induction false} EmptySelection(history: seq<Message>, target: Option<TargetUser>, amount: int)
    requires MinAmount <= amount <= MaxAmount
    ensures Selection(history, target, amount) == [] <==>
      forall m :: m in history[..Min(FetchLimit, |history|)] ==> target.Some? && m.authorId != target.value.id
  {
    var fetched := Fetched(history);
    var cand := Candidates(fetched, target);
    if cand != [] {
      assert cand[0] in cand;
    }
    if target.None? && fetched != [] {
      assert fetched[0] in fetched;
    }
  }

  class ChatService {
    /** The calls made on channels so far, in order. */
    var requests: seq<ChannelRequest>

    constructor()
      ensures requests == []
    {
      requests := [];
    }

    /**
     * `purgeMessages`: nothing happens in a direct-message channel; otherwise
     * the newest hundred messages are fetched, the selection is bulk-deleted
     * with old messages filtered out unless it is empty, and the count the
     * bulk delete reports is returned. `fetchOk` is whether the fetch
     * succeeds; `deleted` is the count the bulk delete reports, or `None`
     * when it throws. Every failure yields 0.
     */
    method PurgeMessages(channel: Channel, amount: int, target: Option<TargetUser>,
                         fetchOk: bool, deleted: Option<nat>) returns (count: nat)
      modifies this
      ensures channel.isDm ==> requests == old(requests)
      ensures !channel.isDm ==>
        requests == old(requests) + [Fetch(FetchLimit)]
          + (if fetchOk && Selection(channel.history, target, amount) != []
             then [BulkDelete(Selection(channel.history, target, amount), true)] else [])
      ensures count == (if channel.isDm || !fetchOk || Selection(channel.history, target, amount) == [] then 0
                        else deleted.GetOr(0))
    {
      if channel.isDm {
        return 0;
      }
      requests := requests + [Fetch(FetchLimit)];
      if !fetchOk {
        return 0;
      }
      var messages := Fetched(channel.history);
      var messagesToDelete := messages;
      if target.Some? {
        messagesToDelete := ByAuthor(messages, target.value.id);
      }
      var finalMessages := SliceTo(messagesToDelete, amount);
      if |finalMessages| == 0 {
        return 0;
      }
      requests := requests + [BulkDelete(finalMessages, true)];
      match deleted
      case None =>
        return 0;
      case Some(n) =>
        return n;
    }
  }
}
