/** `format_class_name` of qspider/utils.py: the class name that `genqspider` writes into a new
    spider file. Python's `str.capitalize` is modelled on ASCII letters; every other character
    is left as it is. */
module Utils {

  predicate IsLower(c: char) { 'a' <= c <= 'z' }

  predicate IsUpper(c: char) { 'A' <= c <= 'Z' }

  /** The upper-case form of an ASCII letter. */
  function Upper(c: char): (u: char)
    ensures !IsLower(u)
    ensures IsLower(c) ==> IsUpper(u)
    ensures !IsLower(c) ==> u == c
  {
    if IsLower(c) then (c as int - 32) as char else c
  }

  /** The lower-case form of an ASCII letter. */
  function Lower(c: char): (l: char)
    ensures !IsUpper(l)
    ensures IsUpper(c) ==> IsLower(l)
    ensures !IsUpper(c) ==> l == c
  {
    if IsUpper(c) then (c as int + 32) as char else c
  }

  /** Two characters that differ at most in ASCII letter case. */
  predicate SameLetter(a: char, b: char) { Lower(a) == Lower(b) }

  /** Upper and lower case agree on which letter a character is. */
  lemma UpperLowerAgree(a: char, b: char)
    ensures Upper(a) == Upper(b) <==> SameLetter(a, b)
  {
  }

  /** `str.lower` on ASCII. */
  function LowerAll(s: string): (r: string)
    ensures |r| == |s|
    ensures forall i :: 0 <= i < |s| ==> r[i] == Lower(s[i])
  {
    if s == [] then [] else [Lower(s[0])] + LowerAll(s[1..])
  }

  /** `str.capitalize` on ASCII: the first character upper-cased, all the others lower-cased. */
  function Capitalize(s: string): (r: string)
    ensures |r| == |s|
    ensures s != [] ==> r[0] == Upper(s[0])
    ensures forall i :: 1 <= i < |s| ==> r[i] == Lower(s[i])
  {
    if s == [] then [] else [Upper(s[0])] + LowerAll(s[1..])
  }

  const Suffix := "Spider"

  /** `format_class_name`: the capitalized name followed by "Spider". */
  function FormatClassName(name: string): (r: string)
    ensures |r| == |name| + 6
    ensures r[|name|..] == Suffix
    ensures name == [] ==> r == Suffix
    ensures name != [] ==> r[0] == Upper(name[0]) && !IsLower(r[0])
    ensures forall i :: 1 <= i < |name| ==> r[i] == Lower(name[i]) && !IsUpper(r[i])
  {
    Capitalize(name) + Suffix
  }

  /** Two strings that differ at most in ASCII letter case. */
  predicate SameUpToCase(a: string, b: string)
  {
    |a| == |b| && forall i :: 0 <= i < |a| ==> SameLetter(a[i], b[i])
  }

  /** Capitalizing again changes nothing. */
  lemma CapitalizeIdempotent(s: string)
    ensures Capitalize(Capitalize(s)) == Capitalize(s)
  {
  }

  /** Two names give the same class name exactly when they differ at most in ASCII letter case. */
  lemma ClassNameIgnoresCase(a: string, b: string)
    ensures FormatClassName(a) == FormatClassName(b) <==> SameUpToCase(a, b)
  {
  }
}
