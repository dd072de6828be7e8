/** The installation-id clean-up of `send_to_tidbyt`: the remote API wants
    alphanumeric installation ids, so every '-' is removed from a truthy id. */
module Normalize {
  import opened Values

  const Separator: char := '-'

  /** Number of separators in `s`. */
  function DashCount(s: string): nat
  {
    if |s| == 0 then 0 else (if s[0] == Separator then 1 else 0) + DashCount(s[1..])
  }

  /** `s` holds at least one character that is not a separator. */
  predicate HasNonDash(s: string)
  {
    exists i :: 0 <= i < |s| && s[i] != Separator
  }

  /** `s.replace("-", "")`. */
  function StripDashes(s: string): (r: string)
    ensures Separator !in r
    ensures |r| == |s| - DashCount(s)
    ensures forall c :: c != Separator ==> multiset(r)[c] == multiset(s)[c]
  {
    if |s| == 0 then ""
    else
      assert s == [s[0]] + s[1..];
      if s[0] == Separator then StripDashes(s[1..])
      else [s[0]] + StripDashes(s[1..])
  }

  /** Stripping distributes over concatenation: it works character by character. */
  lemma {:induction false} StripDashesAppend(a: string, b: string)
    ensures StripDashes(a + b) == StripDashes(a) + StripDashes(b)
    decreases |a|
  {
    if |a| == 0 {
      assert a + b == b;
    } else {
      assert (a + b)[0] == a[0];
      assert (a + b)[1..] == a[1..] + b;
      StripDashesAppend(a[1..], b);
    }
  }

  /** A string without separators is left as it is. */
  lemma {:induction false} StripDashesFixesDashFree(s: string)
    requires Separator !in s
    ensures StripDashes(s) == s
    decreases |s|
  {
    if |s| > 0 {
      assert s[0] != Separator;
      assert Separator !in s[1..];
      StripDashesFixesDashFree(s[1..]);
    }
  }

  /** The result keeps the non-separator characters of `s` in their original order. */
  lemma {:induction false} StripDashesIsSubsequence(s: string)
    ensures IsSubsequence(StripDashes(s), s)
    decreases |s|
  {
    if |s| > 0 {
      StripDashesIsSubsequence(s[1..]);
      if s[0] != Separator {
        var r := StripDashes(s);
        assert r[0] == s[0] && r[1..] == StripDashes(s[1..]);
      } else {
        SubsequenceOfTail(StripDashes(s[1..]), s);
      }
    }
  }

  /** A subsequence of the tail of `b` is a subsequence of `b`. */
  lemma {:induction false} SubsequenceOfTail<T>(a: seq<T>, b: seq<T>)
    requires |b| > 0
    requires IsSubsequence(a, b[1..])
    ensures IsSubsequence(a, b)
  {
  }

  /** `s` is empty after stripping exactly when it holds nothing but separators. */
  lemma {:induction false} StripDashesEmpty(s: string)
    ensures StripDashes(s) == "" <==> !HasNonDash(s)
    decreases |s|
  {
    if |s| > 0 {
      StripDashesEmpty(s[1..]);
      if s[0] == Separator {
        if HasNonDash(s[1..]) {
          var i :| 0 <= i < |s[1..]| && s[1..][i] != Separator;
          assert s[i + 1] != Separator;
        }
        if HasNonDash(s) {
          var i :| 0 <= i < |s| && s[i] != Separator;
          assert s[1..][i - 1] != Separator;
        }
      } else {
        assert s[0] != Separator;
      }
    }
  }

  /** Stripping twice is stripping once. */
  lemma StripDashesIdempotent(s: string)
    ensures StripDashes(StripDashes(s)) == StripDashes(s)
  {
    StripDashesFixesDashFree(StripDashes(s));
  }

  /** `installation_id` after `if installation_id: installation_id = installation_id.replace("-", "")`:
      None and "" pass through untouched, every other id loses its separators. */
  function NormalizeInstallationId(id: Option<string>): (r: Option<string>)
    ensures r.Some? <==> id.Some?
    ensures r.Some? ==> Separator !in r.value && IsSubsequence(r.value, id.value)
    ensures r.Some? ==> |r.value| == |id.value| - DashCount(id.value)
    ensures Truthy(r) <==> id.Some? && HasNonDash(id.value)
  {
    if Truthy(id) then
      StripDashesEmpty(id.value);
      StripDashesIsSubsequence(id.value);
      Some(StripDashes(id.value))
    else
      id
  }

  /** Normalising an already normalised id changes nothing. */
  lemma NormalizeInstallationIdIdempotent(id: Option<string>)
    ensures NormalizeInstallationId(NormalizeInstallationId(id)) == NormalizeInstallationId(id)
  {
    if Truthy(id) {
      StripDashesIdempotent(id.value);
    }
  }
}
