/** Small shared vocabulary: optional values, results that carry a thrown
    error's message, string predicates, and decimal rendering of numbers as
    JavaScript's template strings produce it. */
module Common {

  /** A JavaScript value that may be `null`/`undefined`. */
  datatype Option<+T> = None | Some(value: T)

  /** The outcome of a call that either returns a value or throws an `Error`
      whose `message` is kept. */
  datatype Result<+T> = Ok(value: T) | Err(message: string)

  predicate StartsWith(s: string, prefix: string)
  {
    |prefix| <= |s| && s[..|prefix|] == prefix
  }

  predicate EndsWith(s: string, suffix: string)
  {
    |suffix| <= |s| && s[|s| - |suffix|..] == suffix
  }

  /** `sub` occurs in `s` starting at position `i`. */
  predicate OccursAt(s: string, sub: string, i: int)
  {
    0 <= i && i + |sub| <= |s| && s[i..i + |sub|] == sub
  }

  /** The second part of a concatenation occurs right after the first. */
  lemma OccursAtJoin(a: string, b: string)
    ensures OccursAt(a + b, b, |a|)
  {
    assert (a + b)[|a|..] == b;
  }

  /** An occurrence survives appending more text. */
  lemma OccursInLonger(s: string, t: string, sub: string, i: int)
    requires OccursAt(s, sub, i)
    ensures OccursAt(s + t, sub, i)
  {
    assert (s + t)[i..i + |sub|] == s[i..i + |sub|];
  }

  /** `String.prototype.includes`. */
  predicate Contains(s: string, sub: string)
  {
    exists i | 0 <= i <= |s| - |sub| :: OccursAt(s, sub, i)
  }

  /** An occurrence in the second part of a concatenation is one in the whole. */
  lemma ContainsInSuffix(a: string, d: string, sub: string)
    requires Contains(d, sub)
    ensures Contains(a + d, sub)
  {
    var i :| 0 <= i <= |d| - |sub| && OccursAt(d, sub, i);
    assert (a + d)[|a| + i..|a| + i + |sub|] == d[i..i + |sub|];
    assert OccursAt(a + d, sub, |a| + i);
  }

  /** Putting `a` before a text that lacks `sub` cannot create `sub` when
      the character `sub[k]` never occurs in `a` and `sub[0]` does not occur
      among the last `k` characters of `a`: an occurrence would have to
      start in `a` and then either end inside `a` or straddle the join. */
  lemma {:induction false} NotContainsAfterPrefix(a: string, d: string, sub: string, k: nat)
    requires k < |sub| && k <= |a|
    requires sub[k] !in a
    requires sub[0] !in a[|a| - k..]
    requires !Contains(d, sub)
    ensures !Contains(a + d, sub)
  {
    var s := a + d;
    forall i | 0 <= i <= |s| - |sub| ensures !OccursAt(s, sub, i) {
      if i >= |a| {
        assert !OccursAt(d, sub, i - |a|);
        assert s[i..i + |sub|] == d[i - |a|..i - |a| + |sub|];
      } else if i + k < |a| {
        assert s[i..i + |sub|][k] == a[i + k];
      } else {
        assert s[i..i + |sub|][0] == a[|a| - k..][i - (|a| - k)];
      }
    }
  }

  function DigitChar(d: nat): (c: char)
    requires d < 10
    ensures '0' <= c <= '9'
  {
    ('0' as int + d) as char
  }

  /** Decimal rendering of a natural number, as `${n}` produces it. */
  function NatToString(n: nat): (s: string)
    ensures 1 <= |s|
    ensures n < 10 <==> |s| == 1
    ensures forall k :: 0 <= k < |s| ==> '0' <= s[k] <= '9'
    decreases n
  {
    if n < 10 then [DigitChar(n)] else NatToString(n / 10) + [DigitChar(n % 10)]
  }

  /** Different numbers render differently, so a rendered index identifies it. */
  lemma {:induction false} NatToStringInjective(a: nat, b: nat)
    ensures NatToString(a) == NatToString(b) ==> a == b
    decreases a + b
  {
    if NatToString(a) == NatToString(b) && a >= 10 && b >= 10 {
      var sa, sb := NatToString(a), NatToString(b);
      assert sa[|sa| - 1] == sb[|sb| - 1];
      assert a % 10 == b % 10;
      assert sa[..|sa| - 1] == NatToString(a / 10);
      assert sb[..|sb| - 1] == NatToString(b / 10);
      NatToStringInjective(a / 10, b / 10);
    }
  }

  /** The characters after the last '-' of `s` (all of `s` when it has none). */
  function AfterLastDash(s: string): (r: string)
    ensures '-' !in r
    ensures EndsWith(s, r)
  {
    if s == [] then []
    else if s[|s| - 1] == '-' then []
    else AfterLastDash(s[..|s| - 1]) + [s[|s| - 1]]
  }

  /** A segment without a dash is exactly what follows the last dash. */
  lemma {:induction false} AfterLastDashOfJoin(p: string, d: string)
    requires '-' !in d
    ensures AfterLastDash(p + "-" + d) == d
    decreases |d|
  {
    var s := p + "-" + d;
    if d != [] {
      var front := d[..|d| - 1];
      assert d[|d| - 1] in d;
      assert s[|s| - 1] == d[|d| - 1] != '-';
      assert s[..|s| - 1] == p + "-" + front;
      assert forall c :: c in front ==> c in d;
      AfterLastDashOfJoin(p, front);
      assert front + [d[|d| - 1]] == d;
    } else {
      assert s == p + "-";
      assert s[|s| - 1] == '-';
    }
  }

  /** `a` is `b` with some elements left out, the rest in the same order. */
  ghost predicate IsSubsequence<T>(a: seq<T>, b: seq<T>)
    decreases |b|
  {
    a == [] || (b != [] && ((a[0] == b[0] && IsSubsequence(a[1..], b[1..])) || IsSubsequence(a, b[1..])))
  }

  /** Keys that every object literal inherits from `Object.prototype`; each
      names a function or an object, so each is truthy. */
  const ObjectPrototypeMembers: set<string> := {
    "constructor", "hasOwnProperty", "isPrototypeOf", "propertyIsEnumerable",
    "toLocaleString", "toString", "valueOf", "__defineGetter__",
    "__defineSetter__", "__lookupGetter__", "__lookupSetter__", "__proto__"
  }
}
