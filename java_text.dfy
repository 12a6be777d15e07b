/**
 * The behaviour of the Java string operations the view-models rely on:
 * `String.trim`, `String.replace(CharSequence, CharSequence)` and
 * `String.replaceAll("<[^>]+>", "")`, which strips HTML tags.
 */
module JavaText {

  /* ----- String.trim ----- */

  /** Drops the leading characters at or below U+0020. */
  function TrimStart(s: string): string {
    if s != [] && s[0] <= ' ' then TrimStart(s[1..]) else s
  }

  /** Drops the trailing characters at or below U+0020. */
  function TrimEnd(s: string): string {
    if s != [] && s[|s| - 1] <= ' ' then TrimEnd(s[..|s| - 1]) else s
  }

  /** `String.trim()`. */
  function Trim(s: string): string {
    TrimEnd(TrimStart(s))
  }

  /** Every character is white space or a control character. */
  predicate AllBlank(s: string) {
    forall i :: 0 <= i < |s| ==> s[i] <= ' '
  }

  lemma {:induction false} TrimStartEmpty(s: string)
    ensures TrimStart(s) == [] <==> AllBlank(s)
    ensures TrimStart(s) != [] ==> TrimStart(s)[0] > ' '
  {
    if s != [] && s[0] <= ' ' {
      TrimStartEmpty(s[1..]);
      assert AllBlank(s) <==> AllBlank(s[1..]) by {
        assert forall i :: 0 < i < |s| ==> s[i] == s[1..][i - 1];
      }
    }
  }

  lemma {:induction false} TrimEndKeepsHead(s: string)
    requires s != [] && s[0] > ' '
    ensures TrimEnd(s) != []
  {
    if s[|s| - 1] <= ' ' {
      TrimEndKeepsHead(s[..|s| - 1]);
    }
  }

  /** `s.trim().isEmpty()` holds exactly when `s` has no character above U+0020. */
  lemma TrimEmptyIff(s: string)
    ensures Trim(s) == [] <==> AllBlank(s)
  {
    TrimStartEmpty(s);
    if TrimStart(s) != [] {
      TrimEndKeepsHead(TrimStart(s));
    }
  }

  /* ----- String.replace ----- */

  /** `p` occurs in `s` starting at index `i`. */
  predicate OccursAt(s: string, p: string, i: int) {
    0 <= i && i + |p| <= |s| && s[i..i + |p|] == p
  }

  /** `s.replace(p, r)`: every occurrence of `p`, scanned left to right without
      overlap, becomes `r`.  The view-models only replace non-empty patterns. */
  function ReplaceAll(s: string, p: string, r: string): string
    requires p != []
    decreases |s|
  {
    if |s| < |p| then s
    else if s[..|p|] == p then r + ReplaceAll(s[|p|..], p, r)
    else [s[0]] + ReplaceAll(s[1..], p, r)
  }

  /** Text in which `p` does not occur comes back unchanged. */
  lemma {:induction false} ReplaceAllAbsent(s: string, p: string, r: string)
    requires p != []
    requires forall i :: !OccursAt(s, p, i)
    ensures ReplaceAll(s, p, r) == s
  {
    if |s| >= |p| {
      assert !OccursAt(s, p, 0);
      forall i ensures !OccursAt(s[1..], p, i) {
        if OccursAt(s[1..], p, i) {
          assert s[1..][i..i + |p|] == s[i + 1..i + 1 + |p|];
          assert OccursAt(s, p, i + 1);
        }
      }
      ReplaceAllAbsent(s[1..], p, r);
    }
  }

  /** Dropping the first character of an occurrence-free prefix leaves one. */
  lemma FreePrefixTail(a: string, b: string, p: string)
    requires a != []
    requires forall i :: 0 <= i < |a| ==> !OccursAt(a + b, p, i)
    ensures forall i :: 0 <= i < |a[1..]| ==> !OccursAt(a[1..] + b, p, i)
  {
    var s := a + b;
    assert s[1..] == a[1..] + b;
    forall i | 0 <= i < |a[1..]| ensures !OccursAt(a[1..] + b, p, i) {
      if OccursAt(a[1..] + b, p, i) {
        assert s[1..][i..i + |p|] == s[i + 1..i + 1 + |p|];
        assert OccursAt(s, p, i + 1);
      }
    }
  }

  /** A prefix in which no occurrence of `p` starts is copied as it is. */
  lemma {:induction false} ReplaceAllFreePrefix(a: string, b: string, p: string, r: string)
    requires p != []
    requires forall i :: 0 <= i < |a| ==> !OccursAt(a + b, p, i)
    ensures ReplaceAll(a + b, p, r) == a + ReplaceAll(b, p, r)
  {
    if a != [] {
      var s := a + b;
      assert !OccursAt(s, p, 0);
      assert s[1..] == a[1..] + b;
      FreePrefixTail(a, b, p);
      ReplaceAllFreePrefix(a[1..], b, p, r);
      assert [s[0]] + a[1..] == a;
      if |s| >= |p| {
        assert s[..|p|] != p;
        calc {
          ReplaceAll(s, p, r);
          [s[0]] + ReplaceAll(a[1..] + b, p, r);
          [s[0]] + (a[1..] + ReplaceAll(b, p, r));
          ([s[0]] + a[1..]) + ReplaceAll(b, p, r);
        }
      } else {
        assert ReplaceAll(b, p, r) == b;
      }
    } else {
      assert a + b == b;
    }
  }

  /** The first occurrence of `p`, with nothing before it that starts
      another, is rewritten to `r`; scanning resumes right after it. */
  lemma ReplaceAllRewritesFirst(a: string, b: string, p: string, r: string)
    requires p != []
    requires forall i :: 0 <= i < |a| ==> !OccursAt(a + p + b, p, i)
    ensures ReplaceAll(a + p + b, p, r) == a + r + ReplaceAll(b, p, r)
  {
    assert a + p + b == a + (p + b);
    ReplaceAllFreePrefix(a, p + b, p, r);
    assert (p + b)[..|p|] == p;
    assert (p + b)[|p|..] == b;
  }

  /* ----- String.replaceAll("<[^>]+>", "") ----- */

  /** The index of the first '>' at or after `from`, or `|s|` when there is none. */
  function FirstGt(s: string, from: nat): (j: nat)
    requires from <= |s|
    ensures from <= j <= |s|
    ensures j < |s| ==> s[j] == '>'
    ensures forall i :: from <= i < j ==> s[i] != '>'
    decreases |s| - from
  {
    if from == |s| then |s|
    else if s[from] == '>' then from
    else FirstGt(s, from + 1)
  }

  /** A match of `<[^>]+>` starts at `k`: a '<', then at least one character,
      then the first '>' after it. */
  predicate TagAt(s: string, k: nat) {
    k < |s| && s[k] == '<' &&
    var j := FirstGt(s, k + 1); j < |s| && j >= k + 2
  }

  /** Removes, left to right, every match of the pattern `<[^>]+>`. */
  function StripTags(s: string): string
    decreases |s|
  {
    if s == [] then []
    else if TagAt(s, 0) then StripTags(s[FirstGt(s, 1) + 1..])
    else [s[0]] + StripTags(s[1..])
  }

  /** No match of `<[^>]+>` starts anywhere in `s`. */
  predicate NoTag(s: string) {
    forall k: nat :: k < |s| ==> !TagAt(s, k)
  }

  lemma {:induction false} FirstGtShift(c: char, u: string, k: nat)
    requires k <= |u|
    ensures FirstGt([c] + u, k + 1) == FirstGt(u, k) + 1
    decreases |u| - k
  {
    var s := [c] + u;
    if k < |u| {
      assert s[k + 1] == u[k];
      if u[k] != '>' {
        FirstGtShift(c, u, k + 1);
      }
    }
  }

  /** Tags of `[c] + u` past its first character are exactly the tags of `u`. */
  lemma TagAtShift(c: char, u: string, k: nat)
    ensures TagAt([c] + u, k + 1) <==> TagAt(u, k)
  {
    if k < |u| {
      FirstGtShift(c, u, k + 1);
      assert ([c] + u)[k + 1] == u[k];
    }
  }

  /** Stripping only deletes characters, so it never introduces one. */
  lemma {:induction false} StripTagsChars(s: string)
    ensures forall i :: 0 <= i < |StripTags(s)| ==> StripTags(s)[i] in s
    decreases |s|
  {
    if s != [] {
      if TagAt(s, 0) {
        var rest := s[FirstGt(s, 1) + 1..];
        StripTagsChars(rest);
        assert forall c :: c in rest ==> c in s;
      } else {
        StripTagsChars(s[1..]);
        assert forall c :: c in s[1..] ==> c in s;
      }
    }
  }

  /** After stripping, no match of the pattern is left. */
  lemma {:induction false} StripTagsLeavesNoTag(s: string)
    ensures NoTag(StripTags(s))
    decreases |s|
  {
    if s != [] {
      if TagAt(s, 0) {
        StripTagsLeavesNoTag(s[FirstGt(s, 1) + 1..]);
      } else {
        var u := StripTags(s[1..]);
        StripTagsLeavesNoTag(s[1..]);
        var t := [s[0]] + u;
        assert StripTags(s) == t;
        forall k: nat | k < |t| ensures !TagAt(t, k) {
          if k > 0 {
            TagAtShift(s[0], u, k - 1);
          } else if s[0] == '<' {
            var j := FirstGt(s, 1);
            if j < |s| {
              // the character right after the '<' is the '>'
              assert j == 1;
              assert !TagAt(s[1..], 0);
              assert u == [s[1]] + StripTags(s[2..]) by {
                assert s[1..][1..] == s[2..];
              }
              assert t[1] == '>';
            } else {
              // no '>' follows the '<', so none follows it after stripping
              StripTagsChars(s[1..]);
              assert forall i :: 0 <= i < |u| ==> u[i] != '>' by {
                forall i | 0 <= i < |u| ensures u[i] != '>' {
                  var c := u[i];
                  assert c in s[1..];
                  var m :| 0 <= m < |s[1..]| && s[1..][m] == c;
                  assert s[m + 1] == c;
                }
              }
              assert forall i :: 1 <= i < |t| ==> t[i] != '>';
              assert FirstGt(t, 1) == |t|;
            }
          }
        }
      }
    }
  }

  /** Text without a tag is left as it is. */
  lemma {:induction false} StripTagsNoTagIdentity(s: string)
    requires NoTag(s)
    ensures StripTags(s) == s
    decreases |s|
  {
    if s != [] {
      assert !TagAt(s, 0);
      assert s == [s[0]] + s[1..];
      forall k: nat | k < |s[1..]| ensures !TagAt(s[1..], k) {
        TagAtShift(s[0], s[1..], k);
      }
      StripTagsNoTagIdentity(s[1..]);
    }
  }

  /** Stripping twice is stripping once. */
  lemma StripTagsIdempotent(s: string)
    ensures StripTags(StripTags(s)) == StripTags(s)
  {
    StripTagsLeavesNoTag(s);
    StripTagsNoTagIdentity(StripTags(s));
  }

  /** Text without '<' is left as it is. */
  lemma StripTagsPlainText(s: string)
    requires '<' !in s
    ensures StripTags(s) == s
  {
    assert NoTag(s);
    StripTagsNoTagIdentity(s);
  }
}
