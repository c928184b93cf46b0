/**
 * The search service: a `SEARCH <query>` request is answered with the
 * names of the video files whose name contains the query, together with
 * the names the category table lists under the lower-cased query, sorted
 * and without repeats, one per line after a `FILES` line. The directory
 * listing and the category table are parameters.
 */
module SearchEngine {
  import opened Common
  import opened Text

  /** `VALID_EXTENSION`, compared case-sensitively. */
  const ValidExtension: seq<string> := ["mp4", "avi", "mkv", "mov", "mpg", "Ogg", "wmv", "3gp", "flv", "vob", "webm"]

  /** A file name whose text after the last '.' is a valid extension. */
  predicate ValidFile(name: string)
  {
    LastPiece(name, '.') in ValidExtension
  }

  /** Python's order on strings: by code point, a proper prefix first. */
  predicate Less(a: string, b: string)
    decreases |a|
  {
    |b| > 0 && (|a| == 0 || a[0] < b[0] || (a[0] == b[0] && Less(a[1..], b[1..])))
  }

  lemma {:induction false} LessIrreflexive(a: string)
    ensures !Less(a, a)
    decreases |a|
  {
    if |a| > 0 {
      LessIrreflexive(a[1..]);
    }
  }

  lemma {:induction false} LessTransitive(a: string, b: string, c: string)
    requires Less(a, b) && Less(b, c)
    ensures Less(a, c)
    decreases |a|
  {
    if |a| > 0 && a[0] == b[0] && b[0] == c[0] {
      LessTransitive(a[1..], b[1..], c[1..]);
    }
  }

  lemma {:induction false} LessTotal(a: string, b: string)
    requires a != b
    ensures Less(a, b) || Less(b, a)
    decreases |a|
  {
    if |a| > 0 && |b| > 0 && a[0] == b[0] {
      assert a == [a[0]] + a[1..] && b == [b[0]] + b[1..];
      LessTotal(a[1..], b[1..]);
    }
  }

  /** Ascending without repeats: what `sorted(set(...))` returns. */
  predicate Increasing(s: seq<string>)
  {
    forall i, j :: 0 <= i < j < |s| ==> Less(s[i], s[j])
  }

  /** `x` added to an increasing list at its place, unless it is already there. */
  function InsertUnique(s: seq<string>, x: string): (r: seq<string>)
    requires Increasing(s)
    ensures Increasing(r)
    ensures forall y :: y in r <==> y in s || y == x
    decreases |s|
  {
    if |s| == 0 then [x]
    else if x == s[0] then s
    else if Less(x, s[0]) then
      assert forall j :: 0 < j < |s| ==> Less(x, s[j]) by {
        forall j | 0 < j < |s| ensures Less(x, s[j]) {
          LessTransitive(x, s[0], s[j]);
        }
      }
      [x] + s
    else
      LessTotal(x, s[0]);
      var t := InsertUnique(s[1..], x);
      assert forall y :: y in t ==> Less(s[0], y) by {
        forall y | y in t ensures Less(s[0], y) {
          if y != x {
            var j :| 0 <= j < |s[1..]| && s[1..][j] == y;
            assert s[j + 1] == y;
          }
        }
      }
      [s[0]] + t
  }

  /** `sorted(set(xs))` */
  function SortedSet(xs: seq<string>): (r: seq<string>)
    ensures Increasing(r)
    ensures forall y :: y in r <==> y in xs
  {
    if |xs| == 0 then []
    else
      assert forall y :: y in xs <==> y in xs[..|xs| - 1] || y == xs[|xs| - 1] by {
        assert xs == xs[..|xs| - 1] + [xs[|xs| - 1]];
      }
      InsertUnique(SortedSet(xs[..|xs| - 1]), xs[|xs| - 1])
  }

  /**
   * Two increasing lists with the same elements are the same list: the
   * result is fixed by the set of names alone, whatever the order the
   * listing and the table give them in.
   */
  lemma {:induction false} IncreasingUnique(a: seq<string>, b: seq<string>)
    requires Increasing(a) && Increasing(b)
    requires forall y :: y in a <==> y in b
    ensures a == b
    decreases |a|
  {
    if |a| > 0 {
      assert a[0] in b;
    }
    if |b| > 0 {
      assert b[0] in a;
    }
    if |a| > 0 && |b| > 0 {
      if a[0] != b[0] {
        FrontBelow(a, b);
        FrontBelow(b, a);
        LessTransitive(a[0], b[0], a[0]);
        LessIrreflexive(a[0]);
      } else {
        forall y ensures y in a[1..] <==> y in b[1..] {
          if y in a[1..] {
            TailMember(a, b, y);
          }
          if y in b[1..] {
            TailMember(b, a, y);
          }
        }
        IncreasingUnique(a[1..], b[1..]);
        assert a == [a[0]] + a[1..] && b == [b[0]] + b[1..];
      }
    }
  }

  /** The front of an increasing list is below every other name it holds. */
  lemma FrontBelow(a: seq<string>, b: seq<string>)
    requires Increasing(b) && |a| > 0 && |b| > 0 && a[0] != b[0]
    requires forall z :: z in a <==> z in b
    ensures Less(b[0], a[0])
  {
    assert a[0] in a;
    var j :| 0 <= j < |b| && b[j] == a[0];
  }

  /** A later element of an increasing list is in the tail of any list with the same elements and front. */
  lemma TailMember(a: seq<string>, b: seq<string>, y: string)
    requires Increasing(a) && |a| > 0 && |b| > 0 && a[0] == b[0]
    requires forall z :: z in a <==> z in b
    requires y in a[1..]
    ensures y in b[1..]
  {
    var i :| 0 <= i < |a[1..]| && a[1..][i] == y;
    assert Less(a[0], a[i + 1]);
    LessIrreflexive(y);
    assert y in b;
    var k :| 0 <= k < |b| && b[k] == y;
    assert b[1..][k - 1] == y;
  }

  /** The listing's names with a valid extension that contain the query. */
  function ListingMatches(listing: seq<string>, query: string): (r: seq<string>)
    ensures forall x :: x in r <==> x in listing && ValidFile(x) && Contains(x, query)
  {
    if |listing| == 0 then []
    else
      var rest := ListingMatches(listing[1..], query);
      assert forall x :: x in listing <==> x == listing[0] || x in listing[1..] by {
        assert listing == [listing[0]] + listing[1..];
      }
      if ValidFile(listing[0]) && Contains(listing[0], query) then [listing[0]] + rest else rest
  }

  /** `category.get(query.lower(), [])` */
  function CategoryMatches(category: map<string, seq<string>>, query: string): seq<string>
  {
    if Lower(query) in category then category[Lower(query)] else []
  }

  /**
   * The names `generateResponse` returns: increasing, and exactly the
   * listing's valid names containing the query together with the names
   * filed under the lower-cased query, which skip the extension test.
   */
  function Results(listing: seq<string>, category: map<string, seq<string>>, query: string): (r: seq<string>)
    ensures Increasing(r)
    ensures forall x :: x in r <==>
      (x in listing && ValidFile(x) && Contains(x, query)) || x in CategoryMatches(category, query)
  {
    SortedSet(ListingMatches(listing, query) + CategoryMatches(category, query))
  }

  /** `generateResponse`: a `FILES` line, then the names one per line. */
  function GenerateResponse(listing: seq<string>, category: map<string, seq<string>>, query: string): string
  {
    "FILES\n" + Join(Results(listing, category, query), '\n')
  }

  /**
   * The test in `handleNewConnection`: a request is served only when its
   * first six characters are `SEARCH`, and the query is what follows the
   * seventh.
   */
  function Query(request: string): (q: Option<string>)
    ensures q.Some? <==> |request| >= 6 && request[..6] == "SEARCH"
    ensures q.Some? ==> q.value == if |request| >= 7 then request[7..] else ""
  {
    if |request| >= 6 && request[..6] == "SEARCH" then
      Some(if |request| >= 7 then request[7..] else "")
    else None
  }

  /** Every text contains the empty text. */
  lemma ContainsEmpty(s: string)
    ensures Contains(s, "")
  {
    ContainsSlice(s, "");
    assert OccursAt(s, "", 0);
  }

  /** An empty query lists every valid file of the listing. */
  lemma EmptyQueryListsAll(listing: seq<string>, category: map<string, seq<string>>, x: string)
    requires x in listing && ValidFile(x)
    ensures x in Results(listing, category, "")
  {
    ContainsEmpty(x);
  }

  /**
   * What `handleNewConnection` sends for the requests received on one
   * connection: one response per `SEARCH` request, in order, up to the
   * first empty read (the peer closed), other requests skipped.
   */
  function Served(requests: seq<string>, listing: seq<string>, category: map<string, seq<string>>): (sent: seq<string>)
    ensures |sent| <= |requests|
    decreases |requests|
  {
    if |requests| == 0 || requests[0] == "" then []
    else
      match Query(requests[0])
      case None => Served(requests[1..], listing, category)
      case Some(q) => [GenerateResponse(listing, category, q)] + Served(requests[1..], listing, category)
  }

  /**
   * The receive loop of `handleNewConnection`, the reads given as the
   * sequence `requests` (a read past its end is the empty read of a
   * closed peer).
   */
  method HandleConnection(requests: seq<string>, listing: seq<string>, category: map<string, seq<string>>)
    returns (sent: seq<string>)
    ensures sent == Served(requests, listing, category)
  {
    sent := [];
    var i := 0;
    while true
      invariant 0 <= i <= |requests|
      invariant sent + Served(requests[i..], listing, category) == Served(requests, listing, category)
      decreases |requests| - i
    {
      var request := if i < |requests| then requests[i] else "";
      if request == "" {
        break;
      }
      assert requests[i..][1..] == requests[i + 1..];
      i := i + 1;
      var query := Query(request);
      if query.None? {
        continue;
      }
      sent := sent + [GenerateResponse(listing, category, query.value)];
    }
  }
}
