/**
 The two list updates both pages apply to the thread history:
 `prev.map(chat => chat.id === x.id ? x : chat)` and
 `prev.filter(chat => chat.id !== id)`.
 */
module History {
  import opened Chat

  /** Replaces every thread whose id is `t.id` by `t`, in place. */
  function ReplaceById(history: seq<Thread>, t: Thread): (r: seq<Thread>)
    ensures |r| == |history|
    ensures forall i :: 0 <= i < |r| && history[i].id == t.id ==> r[i] == t
    ensures forall i :: 0 <= i < |r| && history[i].id != t.id ==> r[i] == history[i]
  {
    if |history| == 0 then []
    else [if history[0].id == t.id then t else history[0]] + ReplaceById(history[1..], t)
  }

  /** Keeps, in their original order, the threads whose id is not `id`. */
  function RemoveById(history: seq<Thread>, id: string): (r: seq<Thread>)
    ensures |r| <= |history|
    ensures forall t :: t in r <==> t in history && t.id != id
  {
    if |history| == 0 then []
    else if history[0].id == id then RemoveById(history[1..], id)
    else [history[0]] + RemoveById(history[1..], id)
  }

  /** The ids, in list order. */
  function Ids(history: seq<Thread>): (r: seq<string>)
    ensures |r| == |history|
    ensures forall i :: 0 <= i < |r| ==> r[i] == history[i].id
  {
    seq(|history|, i requires 0 <= i < |history| => history[i].id)
  }

  /** Number of threads whose id is `id`. */
  function CountId(history: seq<Thread>, id: string): (n: nat)
    ensures n <= |history|
  {
    if |history| == 0 then 0
    else (if history[0].id == id then 1 else 0) + CountId(history[1..], id)
  }

  /** Replacing keeps the id sequence, so order and positions are preserved. */
  lemma ReplaceKeepsIds(history: seq<Thread>, t: Thread)
    ensures Ids(ReplaceById(history, t)) == Ids(history)
  {
  }

  /** Replacing with an id that no thread carries changes nothing. */
  lemma ReplaceUnknownId(history: seq<Thread>, t: Thread)
    requires forall i :: 0 <= i < |history| ==> history[i].id != t.id
    ensures ReplaceById(history, t) == history
  {
  }

  /** After replacing with an id that some thread carries, `t` is in the list. */
  lemma ReplaceKnownId(history: seq<Thread>, t: Thread, i: nat)
    requires i < |history| && history[i].id == t.id
    ensures t in ReplaceById(history, t)
  {
    assert ReplaceById(history, t)[i] == t;
  }

  /** Removing drops exactly the threads with that id. */
  lemma {:induction false} RemoveCount(history: seq<Thread>, id: string)
    ensures |RemoveById(history, id)| == |history| - CountId(history, id)
  {
    if |history| > 0 {
      RemoveCount(history[1..], id);
    }
  }

  /** Removing distributes over concatenation, so the kept threads stay in
      their original relative order. */
  lemma {:induction false} RemoveAppend(a: seq<Thread>, b: seq<Thread>, id: string)
    ensures RemoveById(a + b, id) == RemoveById(a, id) + RemoveById(b, id)
  {
    if |a| == 0 {
      assert a + b == b;
    } else {
      assert (a + b)[1..] == a[1..] + b;
      RemoveAppend(a[1..], b, id);
    }
  }

  /** Removing an id that no thread carries changes nothing. */
  lemma {:induction false} RemoveUnknownId(history: seq<Thread>, id: string)
    requires forall i :: 0 <= i < |history| ==> history[i].id != id
    ensures RemoveById(history, id) == history
  {
    if |history| > 0 {
      RemoveUnknownId(history[1..], id);
      assert [history[0]] + history[1..] == history;
    }
  }

  /** Removing twice is the same as removing once. */
  lemma RemoveIdempotent(history: seq<Thread>, id: string)
    ensures RemoveById(RemoveById(history, id), id) == RemoveById(history, id)
  {
    var r := RemoveById(history, id);
    forall i | 0 <= i < |r| ensures r[i].id != id {
      assert r[i] in r;
    }
    RemoveUnknownId(r, id);
  }
}
