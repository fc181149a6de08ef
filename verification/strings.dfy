/** String joining as Go's `strings.Join`, together with the search and split
    operations that undo it. */
module Strings {
  import opened Wrappers

  /** The elements of `parts` with `sep` between each pair of neighbours:
      no parts give the empty string, one part is returned as it is. */
  function Join(parts: seq<string>, sep: string): string
    decreases |parts|
  {
    if |parts| == 0 then ""
    else if |parts| == 1 then parts[0]
    else parts[0] + sep + Join(parts[1..], sep)
  }

  /** `sep` occurs in `s` starting at position `i`. */
  predicate OccursAt(s: string, sep: string, i: int) {
    0 <= i && i + |sep| <= |s| && s[i..i + |sep|] == sep
  }

  predicate Contains(s: string, sep: string) {
    exists i :: 0 <= i <= |s| && OccursAt(s, sep, i)
  }

  /** No proper suffix of `sep` is also a prefix of it, so two occurrences of
      `sep` can never overlap. */
  predicate Borderless(sep: string) {
    forall k :: 0 < k < |sep| ==> sep[k..] != sep[..|sep| - k]
  }

  /** The first occurrence of `sep` in `s` at or after `from`. */
  function IndexFrom(s: string, sep: string, from: nat): (r: Option<nat>)
    ensures r.Some? ==> from <= r.value && OccursAt(s, sep, r.value)
    ensures forall j :: from <= j && (r.None? || j < r.value) ==> !OccursAt(s, sep, j)
    decreases |s| - from
  {
    if from + |sep| > |s| then None
    else if s[from..from + |sep|] == sep then Some(from)
    else IndexFrom(s, sep, from + 1)
  }

  /** The first occurrence of `sep` in `s`, as Go's `strings.Index`. */
  function Index(s: string, sep: string): (r: Option<nat>)
    ensures r.Some? ==> OccursAt(s, sep, r.value)
    ensures r.Some? ==> forall j :: 0 <= j < r.value ==> !OccursAt(s, sep, j)
    ensures r.None? <==> !Contains(s, sep)
  {
    IndexFrom(s, sep, 0)
  }

  lemma OccursInPrefix(s: string, sep: string, k: nat, j: int)
    requires k <= |s|
    requires OccursAt(s[..k], sep, j)
    ensures OccursAt(s, sep, j) && j + |sep| <= k
  {
  }

  /** Cutting `s` at every occurrence of `sep`, as Go's `strings.Split`:
      the pieces join back to `s` and none of them contains `sep`. */
  function Split(s: string, sep: string): (parts: seq<string>)
    requires |sep| > 0
    ensures |parts| >= 1
    ensures Join(parts, sep) == s
    ensures forall i :: 0 <= i < |parts| ==> !Contains(parts[i], sep)
    decreases |s|
  {
    match Index(s, sep)
    case None => [s]
    case Some(k) =>
      var head := s[..k];
      var rest := Split(s[k + |sep|..], sep);
      assert !Contains(head, sep) by {
        forall j | OccursAt(head, sep, j) ensures false {
          OccursInPrefix(s, sep, k, j);
        }
      }
      assert ([head] + rest)[1..] == rest;
      assert s == head + sep + s[k + |sep|..];
      [head] + rest
  }

  /** When `a` holds no `sep`, the first `sep` in `a + sep + b` is the one
      written right after `a`. */
  lemma IndexAfterFirst(a: string, sep: string, b: string)
    requires |sep| > 0 && Borderless(sep)
    requires !Contains(a, sep)
    ensures Index(a + sep + b, sep) == Some(|a|)
  {
    var s := a + sep + b;
    assert s[|a|..|a| + |sep|] == sep;
    assert OccursAt(s, sep, |a|);
    forall j | 0 <= j < |a| ensures !OccursAt(s, sep, j) {
      if j + |sep| <= |a| {
        // an occurrence wholly inside `a`
        assert !OccursAt(a, sep, j);
        assert a[j..j + |sep|] == s[j..j + |sep|];
      } else {
        // an occurrence straddling the end of `a` would be a border of `sep`
        var k := |a| - j;
        assert sep[k..] != sep[..|sep| - k];
        assert s[j..j + |sep|][k..] == s[|a|..j + |sep|] == sep[..|sep| - k];
      }
    }
  }

  /** Splitting a joined list gives the list back, provided it is not empty,
      the separator cannot overlap itself, and no element contains it. */
  lemma {:induction false} SplitJoin(parts: seq<string>, sep: string)
    requires |sep| > 0 && Borderless(sep)
    requires |parts| >= 1
    requires forall i :: 0 <= i < |parts| ==> !Contains(parts[i], sep)
    ensures Split(Join(parts, sep), sep) == parts
    decreases |parts|
  {
    if |parts| == 1 {
      assert !Contains(parts[0], sep);
    } else {
      var a := parts[0];
      var b := Join(parts[1..], sep);
      var s := a + sep + b;
      assert Join(parts, sep) == s;
      IndexAfterFirst(a, sep, b);
      assert s[..|a|] == a;
      assert s[|a| + |sep|..] == b;
      SplitJoin(parts[1..], sep);
      assert parts == [a] + parts[1..];
    }
  }
}
