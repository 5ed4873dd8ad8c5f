/**
 * Ruby values as `JSON.parse` produces them, the exceptions the modelled
 * code can raise, and the handful of Ruby core operations the session and
 * account views apply to parsed documents: `Hash#[]`, `Hash#dig`,
 * `Array#include?` and `to_s`. Semantics follow Ruby 2.x, the last line
 * of Ruby that ships `URI.escape`.
 */
module Ruby {

  datatype Option<+T> = None | Some(value: T)

  /** The exceptions that the modelled code can raise. */
  datatype Fault =
    | KeyError(key: string)  // Hash#fetch of a missing key
    | NoMethodError          // a method called on a receiver that lacks it, nil in particular
    | TypeError              // an argument of the wrong type, or #dig on a value without it
    | ParserError            // JSON::ParserError from JSON.parse

  /** A Ruby computation that either returns a value or raises. */
  datatype Result<+T> = Ok(value: T) | Err(fault: Fault)

  /**
   * A Ruby value that JSON.parse can produce: nil, true/false, an Integer,
   * a String, an Array or a Hash with String keys. A Hash keeps its
   * insertion order. Floats are not part of the model.
   */
  datatype Value =
    | Nil
    | Bool(b: bool)
    | Int(i: int)
    | Str(s: string)
    | Arr(elems: seq<Value>)
    | Hash(members: seq<(string, Value)>)

  /** Ruby truthiness: only nil and false are falsy. */
  predicate Truthy(v: Value) {
    !v.Nil? && v != Bool(false)
  }

  /** The keys of a Hash, in order. */
  function Keys(members: seq<(string, Value)>): (ks: seq<string>)
    ensures |ks| == |members|
    ensures forall k :: 0 <= k < |ks| ==> ks[k] == members[k].0
  {
    if members == [] then [] else [members[0].0] + Keys(members[1..])
  }

  /**
   * `hash[key]`: the value stored under `key`, or nil when the key is
   * absent. A key stored with a JSON null is indistinguishable from a
   * missing one, as in Ruby.
   */
  function Lookup(members: seq<(string, Value)>, key: string): (r: Value)
    ensures key !in Keys(members) ==> r == Nil
    ensures r != Nil ==> exists k :: 0 <= k < |members| && members[k] == (key, r)
    ensures |members| > 0 && members[0].0 == key ==> r == members[0].1
  {
    if members == [] then Nil
    else if members[0].0 == key then members[0].1
    else Lookup(members[1..], key)
  }

  /** `part` occurs in `s` as a contiguous piece. */
  predicate IsInfix(part: string, s: string) {
    exists i | 0 <= i <= |s| :: part <= s[i..]
  }

  /**
   * `v[key]` with a String argument: a Hash looks the key up, a String
   * answers the argument when it occurs in it (String#[]), an Array or an
   * Integer raises TypeError, and nil or a boolean has no `[]` at all.
   */
  function Index(v: Value, key: string): (r: Result<Value>)
    ensures r.Ok? <==> v.Hash? || v.Str?
    ensures v.Hash? ==> r == Ok(Lookup(v.members, key))
    ensures v.Nil? ==> r == Err(NoMethodError)
  {
    match v
    case Hash(m) => Ok(Lookup(m, key))
    case Str(s) => Ok(if IsInfix(key, s) then Str(key) else Nil)
    case Arr(_) => Err(TypeError)
    case Int(_) => Err(TypeError)
    case Nil => Err(NoMethodError)
    case Bool(_) => Err(NoMethodError)
  }

  /**
   * The Ruby expression `v && v[key]`: a falsy receiver is the answer
   * itself, otherwise it is indexed.
   */
  function AndIndex(v: Value, key: string): (r: Result<Value>)
    ensures !Truthy(v) ==> r == Ok(v) && !Truthy(r.value)
    ensures Truthy(v) ==> r == Index(v, key)
    ensures v.Hash? ==> r == Ok(Lookup(v.members, key))
  {
    if Truthy(v) then Index(v, key) else Ok(v)
  }

  /** Running `f` on a document that was obtained, or passing on the exception. */
  function Then<T>(doc: Result<Value>, f: Value -> Result<T>): (r: Result<T>)
    ensures doc.Err? ==> r == Err(doc.fault)
    ensures doc.Ok? ==> r == f(doc.value)
  {
    match doc
    case Err(fault) => Err(fault)
    case Ok(v) => f(v)
  }

  /**
   * `v.dig(k1, k2, ...)`: the receiver must have #dig (a Hash here; an
   * Array rejects a String index); each further step stops with nil at a
   * nil and raises TypeError on a value without a String-keyed #dig.
   */
  function Dig(v: Value, keys: seq<string>): (r: Result<Value>)
    requires |keys| > 0
    ensures !v.Hash? ==> r.Err?
  {
    match v
    case Hash(m) => DigFrom(Lookup(m, keys[0]), keys[1..])
    case Arr(_) => Err(TypeError)
    case _ => Err(NoMethodError)
  }

  /** The remaining steps of a dig, from the value reached so far. */
  function DigFrom(v: Value, keys: seq<string>): (r: Result<Value>)
    decreases |keys|
  {
    if keys == [] || v.Nil? then Ok(v)
    else match v
      case Hash(m) => DigFrom(Lookup(m, keys[0]), keys[1..])
      case _ => Err(TypeError)
  }

  /**
   * Digging two levels into a Hash: nil when the first key is missing,
   * the inner value when the first level is a Hash, TypeError otherwise.
   */
  lemma DigTwo(v: Value, outer: string, inner: string)
    requires v.Hash?
    ensures var mid := Lookup(v.members, outer);
            Dig(v, [outer, inner]) ==
              if mid.Nil? then Ok(Nil)
              else if mid.Hash? then Ok(Lookup(mid.members, inner))
              else Err(TypeError)
  {
    var mid := Lookup(v.members, outer);
    assert [outer, inner][0] == outer && [outer, inner][1..] == [inner];
    assert Dig(v, [outer, inner]) == DigFrom(mid, [inner]);
    assert [inner][0] == inner && [inner][1..] == [];
    if mid.Hash? {
      assert DigFrom(mid, [inner]) == DigFrom(Lookup(mid.members, inner), []);
    }
  }

  /**
   * `v.include?(x)` with a String argument: element membership for an
   * Array, key membership for a Hash, substring for a String; any other
   * receiver has no #include?.
   */
  function Includes(v: Value, x: string): (r: Result<bool>)
    ensures v.Arr? ==> r == Ok(Str(x) in v.elems)
    ensures v.Hash? ==> r == Ok(x in Keys(v.members))
    ensures r.Err? <==> !(v.Arr? || v.Hash? || v.Str?)
  {
    match v
    case Arr(xs) => Ok(Str(x) in xs)
    case Hash(m) => Ok(x in Keys(m))
    case Str(s) => Ok(IsInfix(x, s))
    case _ => Err(NoMethodError)
  }

  predicate IsDigit(c: char) {
    '0' <= c <= '9'
  }

  /** The decimal digits of `n`, most significant first. */
  function Digits(n: nat): (r: string)
    ensures |r| > 0 && forall k :: 0 <= k < |r| ==> IsDigit(r[k])
  {
    if n < 10 then [('0' as int + n) as char]
    else Digits(n / 10) + [('0' as int + n % 10) as char]
  }

  /** `Integer#to_s`: decimal, with a leading minus sign when negative. */
  function IntegerToS(i: int): (r: string)
    ensures |r| > 0 && forall k :: 0 <= k < |r| ==> r[k] == '-' || IsDigit(r[k])
    ensures r[0] == '-' <==> i < 0
  {
    if i < 0 then "-" + Digits(-i) else Digits(i)
  }

  /** `Array#join(", ")`. */
  function JoinComma(parts: seq<string>): string {
    if parts == [] then ""
    else if |parts| == 1 then parts[0]
    else parts[0] + ", " + JoinComma(parts[1..])
  }

  /**
   * `inspect`, in the Ruby 2.x layout (`{"k"=>v}` for a Hash). The
   * backslash escapes that String#inspect adds are not modelled.
   */
  function Inspect(v: Value): (r: string)
    ensures |r| > 0
    ensures v.Arr? ==> r[0] == '['
    ensures v.Hash? ==> r[0] == '{'
    ensures v.Str? ==> r[0] == '"'
  {
    match v
    case Nil => "nil"
    case Bool(b) => if b then "true" else "false"
    case Int(i) => IntegerToS(i)
    case Str(s) => InspectString(s)
    case Arr(xs) =>
      "[" + JoinComma(seq(|xs|, k requires 0 <= k < |xs| => Inspect(xs[k]))) + "]"
    case Hash(m) =>
      "{" + JoinComma(seq(|m|, k requires 0 <= k < |m| => InspectMember(v, m[k]))) + "}"
  }

  /** String#inspect, without its backslash escapes. */
  function InspectString(s: string): string {
    "\"" + s + "\""
  }

  /** One `"key"=>value` entry of Hash#inspect. */
  function InspectMember(ghost hash: Value, member: (string, Value)): string
    requires hash.Hash? && member in hash.members
    decreases hash, 0
  {
    InspectString(member.0) + "=>" + Inspect(member.1)
  }

  /** `to_s`: nil gives "", a String itself; every other value its inspect. */
  function ToS(v: Value): string {
    match v
    case Nil => ""
    case Str(s) => s
    case _ => Inspect(v)
  }

  /**
   * The only value whose `to_s` is a given word of lower-case letters is
   * that String: nil, booleans of other spelling, numbers, Arrays and
   * Hashes all stringify to something else.
   */
  lemma {:induction false} ToSIsWord(v: Value, word: string)
    requires |word| > 0 && forall k :: 0 <= k < |word| ==> 'a' <= word[k] <= 'z'
    requires word != "true" && word != "false"
    ensures ToS(v) == word <==> v == Str(word)
  {
  }
}
