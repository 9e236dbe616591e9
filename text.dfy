/** The few pieces of Python string semantics the client relies on:
    truthiness of an optional string, `a or b or default` chains,
    and `str.rstrip(chars)` / `str.strip()`. */
module Text {

  datatype Option<+T> = None | Some(value: T)

  /** Python truthiness of a value read with `dict.get`: present and not the empty string. */
  predicate Truthy(x: Option<string>) {
    x.Some? && x.value != ""
  }

  /** Index `i` holds the first truthy candidate of `xs`. */
  ghost predicate FirstTruthyAt(xs: seq<Option<string>>, i: int) {
    0 <= i < |xs| && Truthy(xs[i]) && forall j :: 0 <= j < i ==> !Truthy(xs[j])
  }

  /** Python's `xs[0] or xs[1] or ... or last`: the first truthy candidate, else `last`. */
  function FirstTruthy(xs: seq<Option<string>>, last: string): (r: string)
    ensures (forall i :: 0 <= i < |xs| ==> !Truthy(xs[i])) ==> r == last
    ensures forall i :: FirstTruthyAt(xs, i) ==> r == xs[i].value
    ensures r == last || exists i :: FirstTruthyAt(xs, i)
  {
    if xs == [] then last
    else if Truthy(xs[0]) then
      assert FirstTruthyAt(xs, 0);
      xs[0].value
    else
      var r := FirstTruthy(xs[1..], last);
      assert forall i :: FirstTruthyAt(xs, i) ==> i > 0 && FirstTruthyAt(xs[1..], i - 1);
      assert forall i :: FirstTruthyAt(xs[1..], i) ==> FirstTruthyAt(xs, i + 1);
      r
  }

  /** `t` is what remains of `s` once every trailing character in `chars` is removed. */
  ghost predicate RightStripped(t: string, s: string, chars: set<char>) {
    && t <= s
    && (t == [] || t[|t| - 1] !in chars)
    && forall i :: |t| <= i < |s| ==> s[i] in chars
  }

  /** `t` is what remains of `s` once every leading character in `chars` is removed. */
  ghost predicate LeftStripped(t: string, s: string, chars: set<char>) {
    && |t| <= |s|
    && t == s[|s| - |t|..]
    && (t == [] || t[0] !in chars)
    && forall i :: 0 <= i < |s| - |t| ==> s[i] in chars
  }

  /** Python's `s.rstrip(chars)`. */
  function RStrip(s: string, chars: set<char>): (r: string)
    ensures RightStripped(r, s, chars)
  {
    if s != [] && s[|s| - 1] in chars then RStrip(s[..|s| - 1], chars) else s
  }

  /** Python's `s.lstrip(chars)`. */
  function LStrip(s: string, chars: set<char>): (r: string)
    ensures LeftStripped(r, s, chars)
  {
    if s != [] && s[0] in chars then LStrip(s[1..], chars) else s
  }

  /** The characters for which Python's `str.isspace()` holds. */
  const Whitespace: set<char> :=
    {'\t', '\n', '\U{000B}', '\U{000C}', '\r', '\U{001C}', '\U{001D}', '\U{001E}', '\U{001F}', ' ',
     '\U{0085}', '\U{00A0}', '\U{1680}',
     '\U{2000}', '\U{2001}', '\U{2002}', '\U{2003}', '\U{2004}', '\U{2005}', '\U{2006}',
     '\U{2007}', '\U{2008}', '\U{2009}', '\U{200A}',
     '\U{2028}', '\U{2029}', '\U{202F}', '\U{205F}', '\U{3000}'}

  /** Python's `s.strip()` with no argument. */
  function Strip(s: string): (r: string)
    ensures r == "" <==> forall i :: 0 <= i < |s| ==> s[i] in Whitespace
  {
    var t := RStrip(s, Whitespace);
    var r := LStrip(t, Whitespace);
    assert r == "" ==> forall i :: 0 <= i < |t| ==> t[i] in Whitespace;
    assert forall i :: 0 <= i < |t| ==> t[i] == s[i];
    r
  }

  /** The properties of `rstrip` determine its result: any string that is a prefix of `s`,
      does not end in a stripped character and leaves only stripped characters behind is it. */
  lemma RStripUnique(s: string, chars: set<char>, t: string)
    requires RightStripped(t, s, chars)
    ensures t == RStrip(s, chars)
  {
  }

  /** Stripping twice is stripping once. */
  lemma RStripIdempotent(s: string, chars: set<char>)
    ensures RStrip(RStrip(s, chars), chars) == RStrip(s, chars)
  {
  }
}
