/** Strings as the service handles them: blank tests, trimming and the order used to sort identifiers. */
module Text {

  datatype Option<+T> = None | Some(value: T)

  /** The characters removed by trimming: Unicode white space. */
  predicate IsSpace(c: char) {
    || '\t' <= c <= '\r'
    || c == ' '
    || c == '\U{0085}' || c == '\U{00A0}' || c == '\U{1680}'
    || '\U{2000}' <= c <= '\U{200A}'
    || c == '\U{2028}' || c == '\U{2029}' || c == '\U{202F}' || c == '\U{205F}' || c == '\U{3000}'
  }

  function TrimLeft(s: string): (r: string)
    ensures |r| <= |s|
    ensures r == "" || !IsSpace(r[0])
    ensures r != "" ==> r[|r| - 1] == s[|s| - 1]
  {
    if s != "" && IsSpace(s[0]) then TrimLeft(s[1..]) else s
  }

  function TrimRight(s: string): (r: string)
    ensures r <= s
    ensures r == "" || !IsSpace(r[|r| - 1])
  {
    if s != "" && IsSpace(s[|s| - 1]) then TrimRight(s[..|s| - 1]) else s
  }

  /** Removes leading and trailing white space. */
  function Trim(s: string): (r: string)
    ensures r == "" || (!IsSpace(r[0]) && !IsSpace(r[|r| - 1]))
  {
    TrimRight(TrimLeft(s))
  }

  predicate Blank(s: string) {
    Trim(s) == ""
  }

  /** Byte-wise lexicographic order on strings. */
  predicate Less(a: string, b: string) {
    if b == "" then false
    else if a == "" then true
    else a[0] < b[0] || (a[0] == b[0] && Less(a[1..], b[1..]))
  }

  lemma {:induction false} LessTotal(a: string, b: string)
    ensures a == b || Less(a, b) || Less(b, a)
  {
    if a != "" && b != "" && a[0] == b[0] {
      LessTotal(a[1..], b[1..]);
      assert a == [a[0]] + a[1..] && b == [b[0]] + b[1..];
    }
  }

  lemma {:induction false} LessAsymmetric(a: string, b: string)
    requires Less(a, b)
    ensures !Less(b, a) && a != b
  {
    if a != "" && a[0] == b[0] {
      LessAsymmetric(a[1..], b[1..]);
    }
  }

  lemma {:induction false} LessTransitive(a: string, b: string, c: string)
    requires Less(a, b) && Less(b, c)
    ensures Less(a, c)
  {
    if a != "" && a[0] == b[0] == c[0] {
      LessTransitive(a[1..], b[1..], c[1..]);
    }
  }
}
