/** Values shared by the whole model: optional and failing results, Ruby's
    String/Symbol arguments and symbol-or-nil hash keys, opaque DSL blocks,
    and ActiveSupport's notion of a blank value. */
module Common {

  /** Ruby `nil` versus a present value. */
  datatype Option<+T> = None | Some(value: T)

  /** A computation that either returns a value or raises. */
  datatype Result<+T, +E> = Ok(value: T) | Fail(error: E)

  /** A name as a caller passes it: a Ruby String or a Ruby Symbol. */
  datatype Name = Str(text: string) | Sym(text: string)

  /** A hash key of a configuration map: a Symbol or `nil`. Every key the
      DSLs write has been through `to_sym` (or is `nil`). */
  datatype Key = SymKey(sym: string) | NilKey

  /** A Ruby block (proc) stored by a DSL; only its identity matters here.
      `EmptyBlock` is the `proc {}` substituted for a missing block. */
  datatype Block = EmptyBlock | UserBlock(id: nat)

  /** `name.to_sym`: Strings and Symbols with the same text give the same Symbol. */
  function ToSym(n: Name): string
  {
    n.text
  }

  /** `name&.to_sym`: `nil` stays `nil`, anything else becomes a Symbol key. */
  function Symbolize(n: Option<Name>): (k: Key)
    ensures n.None? <==> k == NilKey
    ensures n.Some? ==> k == SymKey(n.value.text)
  {
    match n
    case None => NilKey
    case Some(v) => SymKey(ToSym(v))
  }

  /** The key a raw (not symbolized) argument hits in a hash whose keys are
      Symbols or `nil`: a String never equals a Symbol, so it hits nothing. */
  function RawKey(n: Option<Name>): Option<Key>
  {
    match n
    case None => Some(NilKey)
    case Some(Sym(s)) => Some(SymKey(s))
    case Some(Str(_)) => None
  }

  /** The characters of the POSIX `[[:space:]]` class in the ASCII range. */
  predicate IsSpace(c: char)
  {
    c == ' ' || c == '\t' || c == '\n' || c == '\r' || c == '\U{C}' || c == '\U{B}'
  }

  /** `String#blank?`: empty or whitespace only. */
  predicate BlankString(s: string)
  {
    forall i :: 0 <= i < |s| ==> IsSpace(s[i])
  }

  /** `blank?` of an optional String: `nil` is blank as well. */
  predicate BlankText(t: Option<string>)
  {
    t.None? || BlankString(t.value)
  }

  /** `blank?` of a String or Symbol: a Symbol is blank only when empty
      (it answers `empty?` and has no whitespace rule). */
  predicate BlankName(n: Option<Name>)
  {
    match n
    case None => true
    case Some(Str(s)) => BlankString(s)
    case Some(Sym(s)) => |s| == 0
  }
}
