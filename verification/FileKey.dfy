/** Keys of the file loader: a normalized path and the variant of its content asked for. */
module FileKey {
  import opened Prelude
  import opened ReadExact

  /** An absolute, normalized path. */
  type Path(==, !new)

  datatype Variant = Raw | Uppercase

  datatype Key = Key(path: Path, variant: Variant)

  predicate IsLower(b: Byte) {
    97 <= b <= 122
  }

  /** `r` is what a request for `key` gets of a source that holds `content`. */
  predicate Renders(key: Key, content: seq<Byte>, r: Content) {
    && |r| == |content|
    && (key.variant.Raw? ==> r == content)
    && (forall i | 0 <= i < |content| && !IsLower(content[i]) :: r[i] == content[i])
    && (key.variant.Uppercase? ==>
          forall i | 0 <= i < |content| && IsLower(content[i]) :: r[i] + 32 == content[i] && !IsLower(r[i]))
  }

  /** `make_ascii_uppercase` on the uppercase variant: lower-case letters only, and none is left. */
  function Transformed(key: Key, bytes: Content): (r: Content)
    ensures Renders(key, bytes, r)
  {
    if key.variant.Raw? then bytes
    else seq(|bytes|, i requires 0 <= i < |bytes| => if IsLower(bytes[i]) then bytes[i] - 32 else bytes[i])
  }
}
