/**
 * The client's reorder buffer (client/Buffer.py): a doubly-linked list with
 * a head and a tail sentinel, kept in non-decreasing key order. `Put`
 * scans back from the tail for the last node whose key is at most the new
 * key and links the new node after it; `Get` unlinks the node after the
 * head; `Clear` relinks the two sentinels.
 *
 * The first half of the module is the specification as values: a buffer
 * holds a sequence of entries, `Insert` says where `Put` places a new one,
 * and the lemmas state what that placement guarantees. The second half is
 * the linked structure itself, whose methods are proved against those
 * functions.
 */
module Buffer {
  import opened Common

  /** One buffered item: its sequence key and what was stored under it. */
  datatype Entry<T> = Entry(key: int, content: T)

  /** Keys never decrease from front to back. */
  predicate Sorted<T>(s: seq<Entry<T>>)
  {
    forall i, j :: 0 <= i < j < |s| ==> s[i].key <= s[j].key
  }

  /** Keys are pairwise different. */
  predicate DistinctKeys<T>(s: seq<Entry<T>>)
  {
    forall i, j :: 0 <= i < j < |s| ==> s[i].key != s[j].key
  }

  /**
   * Where the back search puts a new entry with key `k`: right after the
   * last entry whose key is at most `k` (0 when there is none).
   */
  function InsertPos<T>(s: seq<Entry<T>>, k: int): (i: nat)
    ensures i <= |s|
    ensures forall j :: i <= j < |s| ==> s[j].key > k
    ensures i == 0 || s[i - 1].key <= k
  {
    ScanBack(s, k, |s|)
  }

  /** The back search over the first `n` entries of `s`. */
  function ScanBack<T>(s: seq<Entry<T>>, k: int, n: nat): (i: nat)
    requires n <= |s|
    ensures i <= n
    ensures forall j :: i <= j < n ==> s[j].key > k
    ensures i == 0 || s[i - 1].key <= k
  {
    if n == 0 || s[n - 1].key <= k then n else ScanBack(s, k, n - 1)
  }

  /** The two facts `InsertPos` ensures single out one position. */
  lemma InsertPosUnique<T>(s: seq<Entry<T>>, k: int, i: nat)
    requires i <= |s|
    requires forall j :: i <= j < |s| ==> s[j].key > k
    requires i == 0 || s[i - 1].key <= k
    ensures i == InsertPos(s, k)
  {
  }

  /**
   * The sequence after `put(e.key, e.content)`: entries with a larger key
   * are passed over from the back, and `e` goes in after the first entry
   * whose key is at most `e.key`.
   */
  function Insert<T>(s: seq<Entry<T>>, e: Entry<T>): seq<Entry<T>>
  {
    if |s| == 0 || s[|s| - 1].key <= e.key then s + [e] else Insert(s[..|s| - 1], e) + [s[|s| - 1]]
  }

  /** `Insert` places the new entry at the position the back search finds. */
  lemma {:induction false} InsertAt<T>(s: seq<Entry<T>>, e: Entry<T>)
    ensures var i := InsertPos(s, e.key); Insert(s, e) == s[..i] + [e] + s[i..]
    decreases |s|
  {
    if |s| == 0 || s[|s| - 1].key <= e.key {
      assert s[..|s|] == s;
    } else {
      var init, i := s[..|s| - 1], InsertPos(s[..|s| - 1], e.key);
      InsertAt(init, e);
      InsertPosUnique(s, e.key, i);
      assert init[..i] == s[..i];
      assert init[i..] + [s[|s| - 1]] == s[i..];
    }
  }

  /** The sequence after putting each of `es` in turn into `s`. */
  function PutAll<T>(s: seq<Entry<T>>, es: seq<Entry<T>>): seq<Entry<T>>
  {
    if |es| == 0 then s else Insert(PutAll(s, es[..|es| - 1]), es[|es| - 1])
  }

  /** After any put the list is still sorted. */
  lemma InsertSorted<T>(s: seq<Entry<T>>, e: Entry<T>)
    requires Sorted(s)
    ensures Sorted(Insert(s, e))
  {
    var i := InsertPos(s, e.key);
    var r := Insert(s, e);
    InsertAt(s, e);
    forall a, b | 0 <= a < b < |r| ensures r[a].key <= r[b].key {
      if a < i && b == i {
        assert s[a].key <= s[i - 1].key;
      } else if a == i && b > i {
        assert r[b] == s[b - 1];
      }
    }
  }

  /** A put adds exactly the new entry and keeps every old one. */
  lemma {:induction false} InsertMultiset<T>(s: seq<Entry<T>>, e: Entry<T>)
    ensures multiset(Insert(s, e)) == multiset(s) + multiset{e}
    ensures |Insert(s, e)| == |s| + 1
    decreases |s|
  {
    if |s| > 0 && s[|s| - 1].key > e.key {
      var init, last := s[..|s| - 1], s[|s| - 1];
      InsertMultiset(init, e);
      assert s == init + [last];
    }
  }

  /**
   * In a sorted buffer every entry before the new one has an equal or
   * smaller key (those after it have larger ones by `InsertPos`): equal keys
   * come out in the order they were put.
   */
  lemma InsertStable<T>(s: seq<Entry<T>>, e: Entry<T>)
    requires Sorted(s)
    ensures forall j :: 0 <= j < InsertPos(s, e.key) ==> s[j].key <= e.key
  {
    var i := InsertPos(s, e.key);
    forall j | 0 <= j < i ensures s[j].key <= e.key {
      assert s[j].key <= s[i - 1].key;
    }
  }

  /** Putting entries whose keys never decrease just appends them. */
  lemma InsertLast<T>(s: seq<Entry<T>>, e: Entry<T>)
    requires |s| == 0 || s[|s| - 1].key <= e.key
    ensures Insert(s, e) == s + [e]
  {
  }

  /** Whatever order entries are put in, the buffer stays sorted. */
  lemma {:induction false} PutAllSorted<T>(s: seq<Entry<T>>, es: seq<Entry<T>>)
    requires Sorted(s)
    ensures Sorted(PutAll(s, es))
    decreases |es|
  {
    if |es| > 0 {
      PutAllSorted(s, es[..|es| - 1]);
      InsertSorted(PutAll(s, es[..|es| - 1]), es[|es| - 1]);
    }
  }

  /** Whatever order entries are put in, the buffer holds exactly the old entries and them. */
  lemma {:induction false} PutAllMultiset<T>(s: seq<Entry<T>>, es: seq<Entry<T>>)
    ensures multiset(PutAll(s, es)) == multiset(s) + multiset(es)
    ensures |PutAll(s, es)| == |s| + |es|
    decreases |es|
  {
    if |es| > 0 {
      var init, e := es[..|es| - 1], es[|es| - 1];
      assert multiset(es) == multiset(init) + multiset{e} by {
        assert es == init + [e];
      }
      PutAllMultiset(s, init);
      InsertMultiset(PutAll(s, init), e);
    }
  }

  /** Putting the first `j + 1` entries is putting the first `j`, then entry `j`. */
  lemma PutAllStep<T>(s: seq<Entry<T>>, es: seq<Entry<T>>, j: nat)
    requires j < |es|
    ensures PutAll(s, es[..j + 1]) == Insert(PutAll(s, es[..j]), es[j])
  {
    assert es[..j + 1][..j] == es[..j];
  }

  /** Entries put with non-decreasing keys into an empty buffer stay in that order. */
  lemma {:induction false} PutAllInOrder<T>(es: seq<Entry<T>>)
    requires Sorted(es)
    ensures PutAll([], es) == es
    decreases |es|
  {
    if |es| > 0 {
      var init, e := es[..|es| - 1], es[|es| - 1];
      assert Sorted(init) by {
        forall a, b | 0 <= a < b < |init| ensures init[a].key <= init[b].key {
          assert init[a] == es[a] && init[b] == es[b];
        }
      }
      PutAllInOrder(init);
      assert |init| == 0 || init[|init| - 1].key <= e.key by {
        if |init| > 0 {
          assert init[|init| - 1] == es[|es| - 2];
        }
      }
      InsertLast(init, e);
      assert init + [e] == es;
    }
  }

  /** The front of a sorted buffer has the smallest key in it. */
  lemma FrontIsMinimum<T>(s: seq<Entry<T>>)
    requires Sorted(s) && |s| > 0
    ensures forall e :: e in s ==> s[0].key <= e.key
  {
  }

  /** Dropping the front entry drops exactly it from the multiset. */
  lemma TailMultiset<T>(a: seq<Entry<T>>)
    requires |a| > 0
    ensures multiset(a[1..]) == multiset(a) - multiset{a[0]}
  {
    assert a == [a[0]] + a[1..];
  }

  /** Both properties survive dropping the front entry. */
  lemma SortedTail<T>(a: seq<Entry<T>>)
    requires |a| > 0 && Sorted(a) && DistinctKeys(a)
    ensures Sorted(a[1..]) && DistinctKeys(a[1..])
  {
  }

  /** Two sorted sequences with the same entries, one of them without repeated keys, start alike. */
  lemma SameFront<T>(a: seq<Entry<T>>, b: seq<Entry<T>>)
    requires |a| > 0 && Sorted(a) && Sorted(b) && DistinctKeys(a)
    requires multiset(a) == multiset(b)
    ensures a[0] == b[0]
  {
    assert a[0] in multiset(b);
    var j :| 0 <= j < |b| && b[j] == a[0];
    assert b[0] in multiset(a);
    var k :| 0 <= k < |a| && a[k] == b[0];
    assert b[0].key <= b[j].key;
    assert a[0].key <= a[k].key;
  }

  /**
   * Two sorted sequences with the same entries and pairwise different keys
   * are the same sequence: the order of arrival does not matter.
   */
  lemma {:induction false} SortedUnique<T>(a: seq<Entry<T>>, b: seq<Entry<T>>)
    requires Sorted(a) && Sorted(b) && DistinctKeys(a)
    requires multiset(a) == multiset(b)
    ensures a == b
    decreases |a|
  {
    assert |a| == |b| by {
      assert |a| == |multiset(a)| == |multiset(b)| == |b|;
    }
    if |a| > 0 {
      assert a[0] == b[0] by {
        SameFront(a, b);
      }
      assert a[1..] == b[1..] by {
        TailMultiset(a);
        TailMultiset(b);
        SortedTail(a);
        assert Sorted(b[1..]);
        SortedUnique(a[1..], b[1..]);
      }
      assert a == [a[0]] + a[1..] && b == [b[0]] + b[1..];
    }
  }

  /** Nodes pairwise different. */
  ghost predicate DistinctNodes<T>(s: seq<Node<T>>)
  {
    forall a, b :: 0 <= a < b < |s| ==> s[a] != s[b]
  }

  /** Linking a node that is not on the spine yet keeps the spine free of repeats. */
  lemma InsertDistinct<T>(s: seq<Node<T>>, n: Node<T>, i: nat)
    requires DistinctNodes(s) && n !in s && i <= |s|
    ensures DistinctNodes(s[..i] + [n] + s[i..])
  {
    var r := s[..i] + [n] + s[i..];
    forall a, b | 0 <= a < b < |r| ensures r[a] != r[b] {
      if b < i {
        assert r[a] == s[a] && r[b] == s[b];
      } else if a > i {
        assert r[a] == s[a - 1] && r[b] == s[b - 1];
      } else if a < i && b > i {
        assert r[a] == s[a] && r[b] == s[b - 1];
      }
    }
  }

  // ---------------------------------------------------------------------
  // The linked list
  // ---------------------------------------------------------------------

  /** BufferQueueNode: a key, the stored content (None on the sentinels) and two links. */
  class Node<T> {
    const key: int
    const content: Option<T>
    var next: Node?<T>
    var prev: Node?<T>

    constructor (key: int, content: Option<T>)
      ensures this.key == key && this.content == content
      ensures next == null && prev == null
    {
      this.key := key;
      this.content := content;
      next := null;
      prev := null;
    }
  }

  /** Each node's `next` is the following node and that node's `prev` points back. */
  ghost predicate Linked<T>(s: seq<Node<T>>)
    reads s
  {
    && (forall m {:trigger s[m].next} :: 0 <= m < |s| - 1 ==> s[m].next == s[m + 1])
    && (forall m {:trigger s[m].prev} :: 0 < m < |s| ==> s[m].prev == s[m - 1])
  }

  /** The inner nodes of a spine (all but the two ends) hold the entries `c`, in order. */
  ghost predicate Carries<T>(s: seq<Node<T>>, c: seq<Entry<T>>)
  {
    && |s| == |c| + 2
    && forall m {:trigger c[m]} :: 0 <= m < |c| ==> s[m + 1].key == c[m].key && s[m + 1].content == Some(c[m].content)
  }

  /** A new node placed between positions `i` and `i + 1` of the spine carries the new entry there. */
  lemma InsertCarries<T>(s: seq<Node<T>>, c: seq<Entry<T>>, n: Node<T>, e: Entry<T>, i: nat)
    requires Carries(s, c) && i <= |c|
    requires n.key == e.key && n.content == Some(e.content)
    ensures Carries(s[..i + 1] + [n] + s[i + 1..], c[..i] + [e] + c[i..])
  {
    var s', c' := s[..i + 1] + [n] + s[i + 1..], c[..i] + [e] + c[i..];
    forall m | 0 <= m < |c'|
      ensures s'[m + 1].key == c'[m].key && s'[m + 1].content == Some(c'[m].content)
    {
      if m < i {
        assert s'[m + 1] == s[m + 1] && c'[m] == c[m];
      } else if m > i {
        assert s'[m + 1] == s[m] && c'[m] == c[m - 1];
      }
    }
  }

  /**
   * The shape of a spine apart from its links: it runs from sentinel `h`
   * to sentinel `t` (key -1, no content), its nodes lie in `r` and are
   * pairwise different, and its inner nodes carry the entries `c`.
   */
  ghost predicate Spined<T>(s: seq<Node<T>>, c: seq<Entry<T>>, h: Node<T>, t: Node<T>, r: set<object>)
  {
    && Carries(s, c)
    && s[0] == h && s[|s| - 1] == t
    && h.key == -1 && h.content == None
    && t.key == -1 && t.content == None
    && (forall m :: 0 <= m < |s| ==> s[m] in r)
    && DistinctNodes(s)
  }

  /** A new node carrying `e`, placed after position `i`, keeps that shape. */
  lemma InsertSpined<T>(s: seq<Node<T>>, c: seq<Entry<T>>, h: Node<T>, t: Node<T>, r: set<object>,
                        n: Node<T>, e: Entry<T>, i: nat)
    requires Spined(s, c, h, t, r) && i <= |c| && n !in r
    requires n.key == e.key && n.content == Some(e.content)
    ensures Spined(s[..i + 1] + [n] + s[i + 1..], c[..i] + [e] + c[i..], h, t, r + {n})
  {
    InsertCarries(s, c, n, e, i);
    assert n !in s;
    InsertDistinct(s, n, i + 1);
    var s' := s[..i + 1] + [n] + s[i + 1..];
    forall m | 0 <= m < |s'| ensures s'[m] in r + {n} {
      if m <= i {
        assert s'[m] == s[m];
      } else if m > i + 1 {
        assert s'[m] == s[m - 1];
      }
    }
  }

  /**
   * The four assignments of `put` that link `n` in after `p`, which sits at
   * position `i` of a linked spine `s` (never its last node).
   */
  method Splice<T>(ghost s: seq<Node<T>>, ghost i: nat, p: Node<T>, n: Node<T>)
    requires Linked(s) && DistinctNodes(s) && i + 1 < |s| && p == s[i] && n !in s
    modifies p, s[i + 1], n
    ensures Linked(s[..i + 1] + [n] + s[i + 1..])
  {
    var q := p.next;
    p.next, n.next, q.prev, n.prev := n, q, n, p;
    var s' := s[..i + 1] + [n] + s[i + 1..];
    forall m | 0 <= m < |s'| - 1 ensures s'[m].next == s'[m + 1] {
      if m < i {
        assert s'[m] == s[m] && s'[m + 1] == s[m + 1] && s[m] != s[i];
      } else if m > i + 1 {
        assert s'[m] == s[m - 1] && s'[m + 1] == s[m] && s[m - 1] != s[i];
      }
    }
    forall m | 0 < m < |s'| ensures s'[m].prev == s'[m - 1] {
      if m <= i {
        assert s'[m] == s[m] && s'[m - 1] == s[m - 1] && s[m] != s[i + 1];
      } else if m > i + 2 {
        assert s'[m] == s[m - 1] && s'[m - 1] == s[m - 2] && s[m - 1] != s[i + 1];
      }
    }
  }

  /** BufferQueue */
  class BufferQueue<T> {
    var head: Node<T>
    var tail: Node<T>
    var length: int

    /** What the buffer holds, front to back. */
    ghost var Contents: seq<Entry<T>>
    /** The nodes from the head sentinel to the tail sentinel. */
    ghost var Spine: seq<Node<T>>
    ghost var Repr: set<object>

    /**
     * The spine runs from `head` to `tail` through `next`, and back through
     * `prev`; its nodes are pairwise different; the inner nodes carry the
     * entries of `Contents`; `length` counts them; and they are sorted.
     */
    ghost predicate Valid()
      reads this, Repr
    {
      && this in Repr
      && Spined(Spine, Contents, head, tail, Repr)
      && Linked(Spine)
      && DistinctNodes(Spine)
      && length == |Contents|
      && Sorted(Contents)
    }

    /** `__init__`: two linked sentinels with key -1 and length 0. */
    constructor ()
      ensures Valid() && fresh(Repr)
      ensures Contents == []
    {
      var h := new Node<T>(-1, None);
      var t := new Node<T>(-1, None);
      h.next := t;
      t.prev := h;
      head, tail := h, t;
      length := 0;
      Contents := [];
      Spine := [h, t];
      Repr := {this, h, t};
    }

    /**
     * `searchFromBack`: walk `prev` from the last real node until a key at
     * most `k` turns up. The head's key -1 stops the walk whenever
     * `k >= -1`; below that Python runs off the head and fails.
     */
    method SearchFromBack(k: int) returns (p: Node<T>, ghost i: nat)
      requires Valid() && k >= -1
      ensures i == InsertPos(Contents, k) && p == Spine[i]
    {
      assert Spine[|Spine| - 1].prev == Spine[|Spine| - 2];
      p := tail.prev;
      i := |Contents|;
      while p.key > k
        invariant 0 <= i <= |Contents| && p == Spine[i]
        invariant forall j :: i <= j < |Contents| ==> Contents[j].key > k
        decreases i
      {
        assert i > 0 && Spine[i].prev == Spine[i - 1];
        p := p.prev;
        i := i - 1;
      }
      InsertPosUnique(Contents, k, i);
    }

    /** `put(seq, content)` */
    method Put(k: int, x: T)
      requires Valid() && k >= -1
      modifies Repr
      ensures Valid() && fresh(Repr - old(Repr))
      ensures Contents == Insert(old(Contents), Entry(k, x))
    {
      var node := new Node<T>(k, Some(x));
      ghost var S, C := Spine, Contents;
      var p, i := SearchFromBack(k);
      Splice(S, i, p, node);
      var e := Entry(k, x);
      InsertSpined(S, C, head, tail, Repr, node, e, i);
      InsertSorted(C, e);
      InsertAt(C, e);
      length, Contents, Spine, Repr := length + 1, C[..i] + [e] + C[i..], S[..i + 1] + [node] + S[i + 1..], Repr + {node};
    }

    /** `get()`: the front entry, removed; `(-1, None)` and no change when empty. */
    method Get() returns (k: int, x: Option<T>)
      requires Valid()
      modifies Repr
      ensures Valid() && fresh(Repr - old(Repr))
      ensures old(Contents) == [] ==> k == -1 && x == None && Contents == []
      ensures old(Contents) != [] ==>
        && k == old(Contents)[0].key && x == Some(old(Contents)[0].content)
        && Contents == old(Contents)[1..]
    {
      if length == 0 {
        return -1, None;
      }
      assert Spine[0].next == Spine[1] && Spine[1].next == Spine[2];
      assert Spine[2] in Repr;
      var p := head.next;
      head.next := p.next;
      p.next.prev := head;
      length := length - 1;
      Contents := Contents[1..];
      Spine := [head] + Spine[2..];
      return p.key, p.content;
    }

    /** `clear()`: relink the sentinels. */
    method Clear()
      requires Valid()
      modifies Repr
      ensures Valid() && fresh(Repr - old(Repr))
      ensures Contents == []
    {
      head.next := tail;
      tail.prev := head;
      length := 0;
      Contents := [];
      Spine := [head, tail];
    }
  }

  /** The entries the module's own demonstration puts, in its order: keys 0, 1, 3, 2, 4. */
  const DemoEntries: seq<Entry<int>> := [Entry(0, 0), Entry(1, 1), Entry(3, 3), Entry(2, 2), Entry(4, 4)]

  /** The demonstration's first three keys, 0, 1 and 3, arrive in order. */
  lemma DemoFirstThree(es: seq<Entry<int>>)
    requires es == DemoEntries
    ensures PutAll([], es[..3]) == [Entry(0, 0), Entry(1, 1), Entry(3, 3)]
  {
    assert es[..3] == [Entry(0, 0), Entry(1, 1), Entry(3, 3)];
    PutAllInOrder(es[..3]);
  }

  /** Putting the demonstration's entries sorts them: 2 goes in before 3, 4 after it. */
  lemma DemoOrder(es: seq<Entry<int>>)
    requires es == DemoEntries
    ensures PutAll([], es) == [Entry(0, 0), Entry(1, 1), Entry(2, 2), Entry(3, 3), Entry(4, 4)]
  {
    var a, b, c, d := Entry(0, 0), Entry(1, 1), Entry(3, 3), Entry(2, 2);
    DemoFirstThree(es);
    PutAllStep([], es, 3);
    assert [a, b, c][..2] == [a, b];
    assert PutAll([], es[..4]) == [a, b, d, c];
    PutAllStep([], es, 4);
    assert es[..5] == es;
  }

  /** A new buffer, then `put(e.key, e.content)` for each entry `e` of `es` in turn. */
  method Fill(es: seq<Entry<int>>) returns (buffer: BufferQueue<int>)
    requires forall j :: 0 <= j < |es| ==> es[j].key >= -1
    ensures buffer.Valid() && fresh(buffer.Repr)
    ensures buffer.Contents == PutAll([], es)
  {
    buffer := new BufferQueue<int>();
    for j := 0 to |es|
      invariant buffer.Valid() && fresh(buffer.Repr)
      invariant buffer.Contents == PutAll([], es[..j])
    {
      buffer.Put(es[j].key, es[j].content);
      PutAllStep([], es, j);
    }
    assert es[..|es|] == es;
  }

  /**
   * `times` gets in a row, each recorded with the length after it: the
   * entries come out front first, and once the buffer is empty every get
   * answers (-1, None) and the length stays 0.
   */
  method Drain(buffer: BufferQueue<int>, times: nat) returns (got: seq<(int, Option<int>)>, lengths: seq<int>)
    requires buffer.Valid()
    modifies buffer.Repr
    ensures buffer.Valid() && fresh(buffer.Repr - old(buffer.Repr))
    ensures |got| == times && |lengths| == times
    ensures forall j :: 0 <= j < times ==>
      got[j] == if j < |old(buffer.Contents)| then (old(buffer.Contents)[j].key, Some(old(buffer.Contents)[j].content)) else (-1, None)
    ensures forall j :: 0 <= j < times ==> lengths[j] == Max(|old(buffer.Contents)| - j - 1, 0)
  {
    ghost var all := buffer.Contents;
    got, lengths := [], [];
    for n := 0 to times
      invariant buffer.Valid() && fresh(buffer.Repr - old(buffer.Repr))
      invariant buffer.Contents == all[Min(n, |all|)..]
      invariant |got| == n && |lengths| == n
      invariant forall j :: 0 <= j < n ==>
        got[j] == if j < |all| then (all[j].key, Some(all[j].content)) else (-1, None)
      invariant forall j :: 0 <= j < n ==> lengths[j] == Max(|all| - j - 1, 0)
    {
      var k, x := buffer.Get();
      got, lengths := got + [(k, x)], lengths + [buffer.length];
    }
  }

  /**
   * The module's own demonstration: put keys 0, 1, 3, 2, 4, then get six
   * times, recording each result and the length after it. Keys come out
   * sorted, and the get on the empty buffer answers (-1, None).
   */
  method SelfTest() returns (got: seq<(int, Option<int>)>, lengths: seq<int>)
    ensures got == [(0, Some(0)), (1, Some(1)), (2, Some(2)), (3, Some(3)), (4, Some(4)), (-1, None)]
    ensures lengths == [4, 3, 2, 1, 0, 0]
  {
    var buffer := Fill(DemoEntries);
    DemoOrder(DemoEntries);
    got, lengths := Drain(buffer, 6);
  }
}
