// normalizeToolIDs, batchSubsetOf and the text that index file names are
// hashed from (state.go, segment.go).
module ToolIds {
  import opened Strings

  // The byte order of sort.Strings, on code points.
  predicate Less(a: string, b: string) {
    b != "" && (a == "" || a[0] < b[0] || (a[0] == b[0] && Less(a[1..], b[1..])))
  }

  lemma {:induction false} LessIsTotal(a: string, b: string)
    ensures a == b || Less(a, b) || Less(b, a)
  {
    if a != "" && b != "" && a[0] == b[0] {
      LessIsTotal(a[1..], b[1..]);
      if a[1..] == b[1..] {
        assert a == [a[0]] + a[1..] && b == [b[0]] + b[1..];
      }
    }
  }

  lemma {:induction false} LessIsTransitive(a: string, b: string, c: string)
    requires Less(a, b) && Less(b, c)
    ensures Less(a, c)
  {
    if a != "" && a[0] == b[0] == c[0] {
      LessIsTransitive(a[1..], b[1..], c[1..]);
    }
  }

  lemma {:induction false} LessIsStrict(a: string, b: string)
    requires Less(a, b)
    ensures a != b && !Less(b, a)
  {
    if a != "" && a[0] == b[0] {
      LessIsStrict(a[1..], b[1..]);
    }
  }

  predicate Increasing(ids: seq<string>) {
    forall i, j :: 0 <= i < j < |ids| ==> Less(ids[i], ids[j])
  }

  function Elements<T>(s: seq<T>): set<T> {
    set x | x in s
  }

  // Sorted insertion of an id that may already be there.
  function Insert(ids: seq<string>, id: string): (r: seq<string>)
    requires Increasing(ids)
    ensures Increasing(r) && Elements(r) == Elements(ids) + {id}
    decreases |ids|, 0
  {
    if ids == [] then [id]
    else
      var n := |ids| - 1;
      if ids[n] == id then
        assert id in ids;
        ids
      else if Less(ids[n], id) then
        InsertLast(ids, id);
        ids + [id]
      else
        LessIsTotal(ids[n], id);
        InsertBefore(ids[..n], ids[n], id);
        assert Elements(ids) == Elements(ids[..n]) + {ids[n]} by { ElementsOfLast(ids); }
        Insert(ids[..n], id) + [ids[n]]
  }

  // sort.Strings over a set collected in a map.
  function SortedSet(ids: seq<string>): (r: seq<string>)
    ensures Increasing(r) && Elements(r) == Elements(ids)
  {
    if ids == [] then []
    else
      ElementsOfLast(ids);
      Insert(SortedSet(ids[..|ids| - 1]), ids[|ids| - 1])
  }

  lemma ElementsOfLast<T>(s: seq<T>)
    requires s != []
    ensures Elements(s) == Elements(s[..|s| - 1]) + {s[|s| - 1]}
  {
    assert s == s[..|s| - 1] + [s[|s| - 1]];
  }

  lemma InsertLast(ids: seq<string>, id: string)
    requires Increasing(ids) && ids != [] && Less(ids[|ids| - 1], id)
    ensures Increasing(ids + [id]) && Elements(ids + [id]) == Elements(ids) + {id}
  {
    forall i | 0 <= i < |ids|
      ensures Less(ids[i], id)
    {
      if i < |ids| - 1 {
        LessIsTransitive(ids[i], ids[|ids| - 1], id);
      }
    }
  }

  lemma InsertBefore(ids: seq<string>, last: string, id: string)
    requires Increasing(ids + [last]) && Less(id, last)
    ensures Increasing(ids)
    ensures Increasing(Insert(ids, id) + [last]) && Elements(Insert(ids, id) + [last]) == Elements(ids) + {id, last}
    decreases |ids|, 1
  {
    var all := ids + [last];
    forall i, j | 0 <= i < j < |ids|
      ensures Less(ids[i], ids[j])
    {
      assert Less(all[i], all[j]);
    }
    var r := Insert(ids, id);
    forall i | 0 <= i < |r|
      ensures Less(r[i], last)
    {
      assert r[i] in Elements(r);
      if r[i] != id {
        var k :| 0 <= k < |ids| && ids[k] == r[i];
        assert Less(all[k], all[|ids|]);
      }
    }
    ElementsOfLast(r + [last]);
    assert (r + [last])[..|r|] == r;
  }

  // Two increasing lists of the same ids are the same list.
  lemma {:induction false} IncreasingIsCanonical(a: seq<string>, b: seq<string>)
    requires Increasing(a) && Increasing(b) && Elements(a) == Elements(b)
    ensures a == b
  {
    if a == [] {
      assert forall i :: 0 <= i < |b| ==> b[i] in Elements(b);
    } else {
      assert a[0] in Elements(a);
      assert b != [] && b[0] in Elements(b);
      if a[0] != b[0] {
        SmallestIsFirst(a, b[0]);
        SmallestIsFirst(b, a[0]);
        LessIsStrict(a[0], b[0]);
      }
      TailElements(a);
      TailElements(b);
      IncreasingIsCanonical(a[1..], b[1..]);
      assert a == [a[0]] + a[1..] && b == [b[0]] + b[1..];
    }
  }

  lemma SmallestIsFirst(a: seq<string>, x: string)
    requires Increasing(a) && x in a && x != a[0]
    ensures Less(a[0], x)
  {}

  lemma TailElements(a: seq<string>)
    requires Increasing(a) && a != []
    ensures Elements(a[1..]) == Elements(a) - {a[0]}
  {
    forall x | x in a[1..]
      ensures x != a[0]
    {
      var i :| 1 <= i < |a| && a[i] == x;
      LessIsStrict(a[0], a[i]);
    }
    assert a == [a[0]] + a[1..];
  }

  // ---------------------------------------------------------------------
  // Batches
  // ---------------------------------------------------------------------

  // normalizeToolIDs: trimmed, without blanks and repetitions, sorted.
  function Normalize(ids: seq<string>): (r: seq<string>)
    ensures Increasing(r) && "" !in r && forall id :: id in r ==> Trimmed(id)
  {
    if ids == [] then []
    else
      var id := Trim(ids[|ids| - 1]);
      var rest := Normalize(ids[..|ids| - 1]);
      if id == "" then rest
      else
        TrimStrips(ids[|ids| - 1]);
        assert forall x :: x in Insert(rest, id) ==> x in Elements(Insert(rest, id));
        Insert(rest, id)
  }

  // The ids a list names.
  function Named(ids: seq<string>): set<string> {
    (set id | id in ids :: Trim(id)) - {""}
  }

  lemma {:induction false} NormalizeNames(ids: seq<string>)
    ensures Elements(Normalize(ids)) == Named(ids)
  {
    hide Trim, Insert;
    if ids != [] {
      var n := |ids| - 1;
      NormalizeNames(ids[..n]);
      assert ids == ids[..n] + [ids[n]];
      assert Named(ids) == Named(ids[..n]) + ({Trim(ids[n])} - {""});
    }
  }

  // Two lists normalize alike exactly when they name the same ids, whatever
  // their order, repetitions, blanks and padding.
  lemma NormalizeIsCanonical(a: seq<string>, b: seq<string>)
    ensures Normalize(a) == Normalize(b) <==> Named(a) == Named(b)
  {
    hide Normalize, Named;
    NormalizeNames(a);
    NormalizeNames(b);
    if Named(a) == Named(b) {
      IncreasingIsCanonical(Normalize(a), Normalize(b));
    }
  }

  predicate IsBatch(ids: seq<string>) {
    Increasing(ids) && "" !in ids && forall id :: id in ids ==> Trimmed(id)
  }

  lemma NormalizeIsIdempotent(ids: seq<string>)
    requires IsBatch(ids)
    ensures Normalize(ids) == ids && Named(ids) == Elements(ids)
  {
    hide Trim, Normalize;
    forall id | id in ids
      ensures Trim(id) == id
    {
      TrimStrips(id);
    }
    assert Named(ids) == Elements(ids);
    NormalizeNames(ids);
    IncreasingIsCanonical(Normalize(ids), ids);
  }

  // batchSubsetOf, on normalized lists: an empty batch is no subset.
  predicate SubsetOf(batch: seq<string>, submitted: seq<string>) {
    batch != [] && forall id :: id in batch ==> id in submitted
  }

  // ---------------------------------------------------------------------
  // File names
  // ---------------------------------------------------------------------

  predicate NulFree(s: string) {
    '\0' !in s
  }

  // Fields joined by NUL, as the hashed material of an index file name.
  function Joined(fields: seq<string>): string
    requires fields != []
  {
    if |fields| == 1 then fields[0] else fields[0] + "\0" + Joined(fields[1..])
  }

  predicate NulFreeFields(fields: seq<string>) {
    forall f :: f in fields ==> NulFree(f)
  }

  // NUL-free fields can be told apart from their material.
  lemma {:induction false} JoinedIsInjective(a: seq<string>, b: seq<string>)
    requires a != [] && b != [] && NulFreeFields(a) && NulFreeFields(b)
    requires Joined(a) == Joined(b)
    ensures a == b
  {
    SingleFieldHasNoNul(a);
    SingleFieldHasNoNul(b);
    if |a| > 1 {
      assert a[0] in a && b[0] in b;
      FirstNul(a[0], Joined(a[1..]), b[0], Joined(b[1..]));
      JoinedIsInjective(a[1..], b[1..]);
      assert a == [a[0]] + a[1..] && b == [b[0]] + b[1..];
    }
  }

  lemma SingleFieldHasNoNul(a: seq<string>)
    requires a != [] && NulFreeFields(a)
    ensures NulFree(Joined(a)) <==> |a| == 1
  {
    if |a| == 1 {
      assert a[0] in a;
    } else {
      assert Joined(a)[|a[0]|] == '\0';
    }
  }

  lemma FirstNul(a: string, s: string, b: string, t: string)
    requires NulFree(a) && NulFree(b) && a + "\0" + s == b + "\0" + t
    ensures a == b && s == t
  {
    var x := a + "\0" + s;
    NulFollows(a, s);
    NulFollows(b, t);
    assert |a| == |b|;
    assert x[..|a|] == a && x[..|b|] == b;
    assert x[|a| + 1..] == s && x[|b| + 1..] == t;
  }

  lemma NulFollows(a: string, s: string)
    requires NulFree(a)
    ensures var x := a + "\0" + s; x[|a|] == '\0' && forall i :: 0 <= i < |a| ==> x[i] != '\0'
  {
    var x := a + "\0" + s;
    forall i | 0 <= i < |a|
      ensures x[i] != '\0'
    {
      assert x[i] == a[i] && a[i] in a;
    }
  }
}
