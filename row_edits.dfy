/** Index-based edits of a header list, written as the components write them:
    `rows.filter((_, i) => i !== index)` and `rows.map((h, i) => i === index ? {...h, [field]: v} : h)`. */
module RowEdits {
  import opened WebhookTypes

  /** The row a form adds: `{ key: '', value: '' }`. */
  const EmptyHeader := Header("", "")

  /** `s.filter((_, i) => i !== index)`: keeps every element whose position differs from `index`.
      An index outside the list (negative included) matches nothing. */
  function RemoveAt<T>(s: seq<T>, index: int): (r: seq<T>)
    ensures 0 <= index < |s| ==> r == s[..index] + s[index + 1..]
    ensures !(0 <= index < |s|) ==> r == s
  {
    if s == [] then []
    else (if index == 0 then [] else [s[0]]) + RemoveAt(s[1..], index - 1)
  }

  /** `{ ...h, [field]: v }`. */
  function SetField(h: Header, field: HeaderField, v: string): (r: Header)
    ensures field == Key ==> r.key == v && r.value == h.value
    ensures field == Value ==> r.value == v && r.key == h.key
  {
    match field
    case Key => h.(key := v)
    case Value => h.(value := v)
  }

  /** `hs.map((h, i) => i === index ? { ...h, [field]: v } : h)`: a new list of the same length in
      which only the row at `index` has `field` replaced. */
  function UpdateAt(hs: seq<Header>, index: int, field: HeaderField, v: string): (r: seq<Header>)
    ensures |r| == |hs|
    ensures forall i :: 0 <= i < |hs| && i != index ==> r[i] == hs[i]
    ensures 0 <= index < |hs| ==> r[index] == SetField(hs[index], field, v)
  {
    if hs == [] then []
    else [if index == 0 then SetField(hs[0], field, v) else hs[0]] + UpdateAt(hs[1..], index - 1, field, v)
  }

  /** The by-index update is a single replacement in the list, and no change at all out of range. */
  lemma UpdateAtReplaces(hs: seq<Header>, index: int, field: HeaderField, v: string)
    ensures 0 <= index < |hs| ==> UpdateAt(hs, index, field, v) == hs[index := SetField(hs[index], field, v)]
    ensures !(0 <= index < |hs|) ==> UpdateAt(hs, index, field, v) == hs
  {
  }
}
