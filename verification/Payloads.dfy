/** Payloads of the NCCL transport and the views of payload lists that both ends share. */
module Payloads {

  /** One queued payload; `tag` tells payloads of one transfer id apart. */
  datatype Item = Item(id: nat, bytes: nat, tag: nat)

  datatype Ack = AckOk | AckOom | AckRetry

  function Of(s: seq<Item>, id: nat): seq<Item> {
    if s == [] then [] else (if s[0].id == id then [s[0]] else []) + Of(s[1..], id)
  }

  function Total(s: seq<Item>): nat {
    if s == [] then 0 else s[0].bytes + Total(s[1..])
  }

  lemma OfFirst(s: seq<Item>, id: nat)
    requires s != []
    ensures Of(s, id) == (if s[0].id == id then [s[0]] else []) + Of(s[1..], id)
  {
  }

  lemma {:induction false} OfAppend(a: seq<Item>, b: seq<Item>, id: nat)
    ensures Of(a + b, id) == Of(a, id) + Of(b, id)
  {
    hide Of;
    if a == [] {
      assert a + b == b;
      OfEmpty(id);
    } else {
      assert (a + b)[1..] == a[1..] + b;
      OfAppend(a[1..], b, id);
      OfFirst(a, id);
      OfFirst(a + b, id);
    }
  }

  lemma {:induction false} TotalAppend(a: seq<Item>, b: seq<Item>)
    ensures Total(a + b) == Total(a) + Total(b)
  {
    if a == [] {
      assert a + b == b;
    } else {
      assert (a + b)[1..] == a[1..] + b;
      TotalAppend(a[1..], b);
    }
  }

  lemma {:induction false} OfPrefix(a: seq<Item>, b: seq<Item>, id: nat)
    requires a <= b
    ensures Of(a, id) <= Of(b, id)
  {
    assert b == a + b[|a|..];
    OfAppend(a, b[|a|..], id);
  }

  /** Index of the first queued item with the id, or the queue's length. */
  function RetryIndex(queue: seq<Item>, id: nat): (k: nat)
    ensures k <= |queue| && (k < |queue| ==> queue[k].id == id)
    ensures forall i :: 0 <= i < k ==> queue[i].id != id
  {
    if queue == [] || queue[0].id == id then 0 else 1 + RetryIndex(queue[1..], id)
  }

  lemma {:induction false} OfNone(s: seq<Item>, id: nat)
    requires forall i :: 0 <= i < |s| ==> s[i].id != id
    ensures Of(s, id) == []
  {
    if s != [] { OfNone(s[1..], id); }
  }

  lemma TotalOne(x: Item)
    ensures Total([x]) == x.bytes
  {
  }

  lemma TotalFirst(s: seq<Item>)
    requires s != []
    ensures Total(s) == s[0].bytes + Total(s[1..])
  {
  }

  lemma EmptyTotal()
    ensures Total([]) == 0
  {
  }

  lemma OfOther(x: Item, id: nat)
    requires x.id != id
    ensures Of([x], id) == []
  {
  }

  lemma OfEmpty(id: nat)
    ensures Of([], id) == []
  {
  }

  function Select(s: seq<Item>, keep: seq<bool>): seq<Item>
    requires |s| == |keep|
  {
    if s == [] then [] else
      Select(s[..|s| - 1], keep[..|s| - 1]) + (if keep[|s| - 1] then [s[|s| - 1]] else [])
  }

  lemma SelectAppend(s: seq<Item>, keep: seq<bool>, x: Item, b: bool)
    requires |s| == |keep|
    ensures Select(s + [x], keep + [b]) == Select(s, keep) + (if b then [x] else [])
  {
    assert (s + [x])[..|s|] == s && (keep + [b])[..|s|] == keep;
  }

  lemma {:induction false} SelectAll(s: seq<Item>, keep: seq<bool>)
    requires |s| == |keep| && forall i :: 0 <= i < |keep| ==> keep[i]
    ensures Select(s, keep) == s
  {
    if s != [] {
      SelectAll(s[..|s| - 1], keep[..|s| - 1]);
      assert s == s[..|s| - 1] + [s[|s| - 1]];
    }
  }
}
