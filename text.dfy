/**
 * The few string operations the chatbot relies on: `str.lower()`, `str.strip()`,
 * the substring test `key in text`, and `re.search(r'\d{11}', text)`.
 * Letters and digits are ASCII only; whitespace is Python's full set.
 */
module Text {
  import opened Wrappers

  /** Length of a CPF, the Brazilian national identity number: `\d{11}`. */
  const CpfLength: nat := 11

  predicate IsDigit(c: char) {
    '0' <= c <= '9'
  }

  predicate IsUpper(c: char) {
    'A' <= c <= 'Z'
  }

  /** Characters Python's `str.strip()` removes: those for which `str.isspace()` holds. */
  predicate IsSpace(c: char) {
    c == ' ' || ('\t' <= c <= '\r') || ('\U{1C}' <= c <= '\U{1F}')
    || c == '\U{85}' || c == '\U{A0}' || c == '\U{1680}'
    || ('\U{2000}' <= c <= '\U{200A}') || c == '\U{2028}' || c == '\U{2029}'
    || c == '\U{202F}' || c == '\U{205F}' || c == '\U{3000}'
  }

  function LowerChar(c: char): char {
    if IsUpper(c) then (c as int - 'A' as int + 'a' as int) as char else c
  }

  /** `s.lower()` on ASCII: upper-case letters become lower case, all else stays. */
  function Lower(s: string): (r: string)
    ensures |r| == |s|
    ensures forall i :: 0 <= i < |s| ==> r[i] == LowerChar(s[i])
  {
    if s == [] then [] else [LowerChar(s[0])] + Lower(s[1..])
  }

  /** Drops leading whitespace. */
  function StripLeft(s: string): string {
    if s != [] && IsSpace(s[0]) then StripLeft(s[1..]) else s
  }

  /** Drops trailing whitespace. */
  function StripRight(s: string): string {
    if s != [] && IsSpace(s[|s| - 1]) then StripRight(s[..|s| - 1]) else s
  }

  /** What remains after `StripLeft` is the suffix of `s` that starts at its first non-space. */
  lemma {:induction false} StripLeftIsSuffix(s: string)
    ensures var r := StripLeft(s);
      |r| <= |s| && r == s[|s| - |r|..] &&
      (r == [] || !IsSpace(r[0])) &&
      forall k :: 0 <= k < |s| - |r| ==> IsSpace(s[k])
  {
    if s != [] && IsSpace(s[0]) {
      StripLeftIsSuffix(s[1..]);
    }
  }

  /** What remains after `StripRight` is the prefix of `s` that ends at its last non-space. */
  lemma {:induction false} StripRightIsPrefix(s: string)
    ensures var r := StripRight(s);
      |r| <= |s| && r == s[..|r|] &&
      (r == [] || !IsSpace(r[|r| - 1])) &&
      forall k :: |r| <= k < |s| ==> IsSpace(s[k])
  {
    if s != [] && IsSpace(s[|s| - 1]) {
      StripRightIsPrefix(s[..|s| - 1]);
    }
  }

  /** `s.strip()`. */
  function Strip(s: string): string {
    StripRight(StripLeft(s))
  }

  /** Python's `k in s` on strings: `k` occurs somewhere in `s` as a contiguous piece. */
  predicate Contains(s: string, k: string)
    decreases |s|
  {
    k <= s || (s != [] && Contains(s[1..], k))
  }

  /** `k` occurs in `s` starting at position `i`. */
  predicate OccursAt(s: string, k: string, i: int) {
    0 <= i && i + |k| <= |s| && s[i..i + |k|] == k
  }

  /** The recursive `Contains` agrees with the positional reading of Python's `in`. */
  lemma {:induction false} ContainsMeansOccurs(s: string, k: string)
    ensures Contains(s, k) <==> exists i :: OccursAt(s, k, i)
    decreases |s|
  {
    if s != [] {
      ContainsMeansOccurs(s[1..], k);
      if k <= s {
        assert OccursAt(s, k, 0);
      }
      if Contains(s[1..], k) {
        var i :| OccursAt(s[1..], k, i);
        assert s[i + 1..i + 1 + |k|] == s[1..][i..i + |k|];
        assert OccursAt(s, k, i + 1);
      }
      if i :| OccursAt(s, k, i) {
        if i > 0 {
          assert s[1..][i - 1..i - 1 + |k|] == s[i..i + |k|];
          assert OccursAt(s[1..], k, i - 1);
        } else {
          assert k <= s;
        }
      }
    } else if k == [] {
      assert OccursAt(s, k, 0);
    }
  }

  /** A keyword whose first character is absent from `s` does not occur in it. */
  lemma {:induction false} NotContainedWithoutFirstChar(s: string, k: string)
    requires k != [] && k[0] !in s
    ensures !Contains(s, k)
    decreases |s|
  {
    if s != [] {
      assert s[0] in s;
      assert forall c :: c in s[1..] ==> c in s;
      NotContainedWithoutFirstChar(s[1..], k);
    }
  }

  /** Eleven digits start at position `i` of `s`. */
  predicate DigitRunAt(s: string, i: int) {
    0 <= i && i + CpfLength <= |s| && forall k :: i <= k < i + CpfLength ==> IsDigit(s[k])
  }

  /** Leftmost position, at or after `from`, where eleven digits start. */
  function FindCpfFrom(s: string, from: nat): (r: Option<nat>)
    requires from <= |s|
    ensures r.Some? ==> from <= r.value && DigitRunAt(s, r.value)
    ensures r.Some? ==> forall j :: from <= j < r.value ==> !DigitRunAt(s, j)
    ensures r.None? ==> forall j :: from <= j ==> !DigitRunAt(s, j)
    decreases |s| - from
  {
    if from + CpfLength > |s| then None
    else if DigitRunAt(s, from) then Some(from)
    else FindCpfFrom(s, from + 1)
  }

  /**
   * The start of `re.search(r'\d{11}', s)`: the leftmost position where eleven
   * digits start, or None when `s` holds no run of eleven digits.
   */
  function FindCpf(s: string): (r: Option<nat>)
    ensures r.Some? <==> exists i :: DigitRunAt(s, i)
    ensures r.Some? ==> DigitRunAt(s, r.value) && forall j :: 0 <= j < r.value ==> !DigitRunAt(s, j)
  {
    FindCpfFrom(s, 0)
  }

  /** The text `re.search(r'\d{11}', s).group()` returns. */
  function CpfMatch(s: string, i: nat): (r: string)
    requires DigitRunAt(s, i)
    ensures |r| == CpfLength && forall k :: 0 <= k < |r| ==> IsDigit(r[k])
  {
    s[i..i + CpfLength]
  }
}
