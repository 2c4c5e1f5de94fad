/**
 * The few Python string operations the o18n core relies on, written out on
 * `seq<char>`: `'%s' % value` for an optional string, truthiness, `x or y`,
 * `str.endswith('/')` and `str.replace(old, new, 1)`, with the search for the
 * first occurrence that `replace` relies on.
 * `str.startswith(p)` is Dafny's sequence prefix test `p <= s`.
 */
module Text {
  import opened Wrappers

  /** `'%s' % value`: a missing value renders as the text "None". */
  function Render(value: Option<string>): string
  {
    match value
    case Some(s) => s
    case None => "None"
  }

  /** Python truthiness of an optional string: `None` and `""` are false. */
  predicate Truthy(value: Option<string>)
  {
    value.Some? && value.value != ""
  }

  /** `value or default` for an optional string. */
  function Or(value: Option<string>, default: string): string
  {
    if Truthy(value) then value.value else default
  }

  /** `s.endswith('/')` */
  predicate EndsWithSlash(s: string)
  {
    |s| > 0 && s[|s| - 1] == '/'
  }

  /** `sub` occurs in `s` starting at index `i`. */
  predicate OccursAt(s: string, sub: string, i: int)
  {
    0 <= i && i + |sub| <= |s| && s[i..i + |sub|] == sub
  }

  /** `s.find(sub, start)`: the first index at or after `start` where `sub` occurs. */
  function FindFrom(s: string, sub: string, start: nat): (r: Option<nat>)
    decreases |s| - start
    ensures r.Some? ==> start <= r.value && OccursAt(s, sub, r.value)
    ensures forall j :: start <= j && (r.None? || j < r.value) ==> !OccursAt(s, sub, j)
  {
    if OccursAt(s, sub, start) then Some(start)
    else if start >= |s| then None
    else FindFrom(s, sub, start + 1)
  }

  /**
   * `s.replace(old, new, 1)` with `old` as `target` and `new` as `replacement`:
   * the first occurrence of `target` is replaced by `replacement`; without an
   * occurrence `s` comes back unchanged. An empty `target` occurs at index 0,
   * so `replacement` is then put in front, as in Python.
   */
  function ReplaceFirst(s: string, target: string, replacement: string): (r: string)
    ensures (forall j :: !OccursAt(s, target, j)) ==> r == s
    ensures (exists j :: OccursAt(s, target, j)) ==>
      exists i :: OccursAt(s, target, i) && (forall j :: 0 <= j < i ==> !OccursAt(s, target, j)) &&
        r == s[..i] + replacement + s[i + |target|..]
  {
    match FindFrom(s, target, 0)
    case None => s
    case Some(i) => s[..i] + replacement + s[i + |target|..]
  }

  /** When `s` starts with `target`, replacing its first occurrence swaps that leading part. */
  lemma ReplaceFirstAtStart(s: string, target: string, replacement: string)
    requires target <= s
    ensures ReplaceFirst(s, target, replacement) == replacement + s[|target|..]
  {
    assert OccursAt(s, target, 0);
  }
}
