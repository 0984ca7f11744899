/** String helpers shared by the grok selection and the configuration writer:
    Java's `String.contains`, an ASCII `toLowerCase`, and a reader's view of one
    `key = value` line (the text between a known prefix and suffix). */
module Text {

  datatype Option<+T> = None | Some(value: T)

  /** `t` occurs in `s` starting at position `i`. */
  predicate OccursAt(s: string, t: string, i: nat)
  {
    i + |t| <= |s| && s[i..i + |t|] == t
  }

  /** `s.contains(t)`: some position of `s` starts an occurrence of `t`. */
  function Contains(s: string, t: string): (r: bool)
    ensures r <==> exists i: nat :: OccursAt(s, t, i)
    decreases |s|
  {
    if |t| > |s| then
      assert forall i: nat :: !OccursAt(s, t, i);
      false
    else if s[..|t|] == t then
      assert OccursAt(s, t, 0);
      true
    else
      var rest := Contains(s[1..], t);
      assert forall i: nat :: OccursAt(s[1..], t, i) ==> OccursAt(s, t, i + 1) by {
        forall i: nat | OccursAt(s[1..], t, i) ensures OccursAt(s, t, i + 1) {
          assert s[i + 1..i + 1 + |t|] == s[1..][i..i + |t|];
        }
      }
      assert forall i: nat :: OccursAt(s, t, i) && i > 0 ==> OccursAt(s[1..], t, i - 1) by {
        forall i: nat | OccursAt(s, t, i) && i > 0 ensures OccursAt(s[1..], t, i - 1) {
          assert s[1..][i - 1..i - 1 + |t|] == s[i..i + |t|];
        }
      }
      rest
  }

  /** An occurrence at a known position is enough for `Contains`. */
  lemma ContainsAt(s: string, t: string, i: nat)
    requires OccursAt(s, t, i)
    ensures Contains(s, t)
  {
  }

  /** The last piece of a concatenation occurs where it was put. */
  lemma OccursAtEnd(a: string, t: string)
    ensures OccursAt(a + t, t, |a|)
  {
    assert (a + t)[|a|..|a| + |t|] == t;
  }

  /** Appending text keeps an occurrence where it was. */
  lemma OccursExtend(s: string, t: string, i: nat, u: string)
    requires OccursAt(s, t, i)
    ensures OccursAt(s + u, t, i)
  {
    assert (s + u)[i..i + |t|] == s[i..i + |t|];
  }

  /** A character of `t` that `s` lacks rules out every occurrence of `t` in `s`. */
  lemma MissingCharNotContained(s: string, t: string, c: char)
    requires c in t && c !in s
    ensures !Contains(s, t)
  {
  }

  /** Java's `Character.toLowerCase` restricted to ASCII: only 'A'..'Z' change. */
  function LowerChar(c: char): (r: char)
    ensures !('A' <= r <= 'Z')
    ensures 'a' <= r <= 'z' ==> r == c || r as int == c as int + 32
  {
    if 'A' <= c <= 'Z' then (c as int + 32) as char else c
  }

  /** ASCII model of `String.toLowerCase`: same length, every upper-case letter lowered. */
  function ToLowerAscii(s: string): (r: string)
    ensures |r| == |s|
    ensures forall i :: 0 <= i < |r| ==> r[i] == LowerChar(s[i]) && !('A' <= r[i] <= 'Z')
  {
    seq(|s|, i requires 0 <= i < |s| => LowerChar(s[i]))
  }

  /** Lowering is idempotent: a lower-cased identifier is its own lower-case form. */
  lemma ToLowerIdempotent(s: string)
    ensures ToLowerAscii(ToLowerAscii(s)) == ToLowerAscii(s)
  {
  }

  /** `line` starts with `prefix` and ends with a separate `suffix`. */
  predicate Matches(line: string, prefix: string, suffix: string)
  {
    |prefix| + |suffix| <= |line| && line[..|prefix|] == prefix && line[|line| - |suffix|..] == suffix
  }

  /** The text between `prefix` and `suffix`, when `line` has both: what a reader takes
      as the value on a `key = value` line. */
  function Unwrap(line: string, prefix: string, suffix: string): (r: Option<string>)
    ensures r.Some? <==> Matches(line, prefix, suffix)
    ensures r.Some? ==> line == prefix + r.value + suffix
  {
    if Matches(line, prefix, suffix) then
      var v := line[|prefix|..|line| - |suffix|];
      assert line == line[..|prefix|] + v + line[|line| - |suffix|..];
      Some(v)
    else None
  }

  /** Whatever is spliced between a prefix and a suffix is read back unchanged: nothing
      is escaped, so nothing needs unescaping. */
  lemma {:induction false} UnwrapSpliced(prefix: string, v: string, suffix: string)
    ensures Unwrap(prefix + v + suffix, prefix, suffix) == Some(v)
  {
    var line := prefix + v + suffix;
    assert line[..|prefix|] == prefix;
    assert line[|line| - |suffix|..] == suffix;
    assert line[|prefix|..|line| - |suffix|] == v;
  }
}
