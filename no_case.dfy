/** Case-insensitive string comparison, as FString::CompareNoCase does it (ASCII folding). */
module NoCase {
  function Lower(c: char): char
  {
    if 'A' <= c <= 'Z' then (c as int + 32) as char else c
  }

  /** True when CompareNoCase(a, b) == 0. */
  predicate EqualsNoCase(a: string, b: string)
  {
    |a| == |b| && forall i :: 0 <= i < |a| ==> Lower(a[i]) == Lower(b[i])
  }
}
