/** The reader of src/tracking/codec.rs:70-140.

    `R` in the source holds the part of a slice that is not yet consumed. Here a read is a
    function of the whole buffer and a cursor, and class `Reader` is the object that moves the
    cursor in place; each of its methods is proved against the function of the same name. */
module Reading {
  import opened Wrappers
  import opened Bytes
  import opened Utf8

  const MAX_STRING := 4096

  datatype DecodeError = Truncated | Invalid

  datatype Read<+T> = Got(value: T, next: nat) | Fail(error: DecodeError) {
    predicate IsFailure() {
      Fail?
    }

    function PropagateFailure<U>(): Read<U>
      requires Fail?
    {
      Fail(error)
    }

    function Extract(): (T, nat)
      requires Got?
    {
      (value, next)
    }

    /** The outcome without the cursor. */
    function Outcome(): Result<T, DecodeError> {
      match this
      case Got(v, _) => Ok(v)
      case Fail(e) => Err(e)
    }
  }

  /** A UUID string: empty, sixteen bytes, or other text. */
  type Uuid = s: seq<Byte> | |s| == 16 witness [0, 0, 0, 0, 0, 0, 0, 0, 0, 0, 0, 0, 0, 0, 0, 0]
  datatype Uid = NoUid | Uid(bytes: Uuid) | NotUuid(text: seq<Byte>)

  const NIL: Uuid := [0, 0, 0, 0, 0, 0, 0, 0, 0, 0, 0, 0, 0, 0, 0, 0]

  /** Eight bytes of an f64, unread. */
  type F64 = s: seq<Byte> | |s| == 8 witness [0, 0, 0, 0, 0, 0, 0, 0]

  function Need(b: seq<Byte>, i: nat, n: nat): (r: Read<seq<Byte>>)
    requires i <= |b|
    ensures r.Got? ==> r.next == i + n <= |b| && |r.value| == n
  {
    if |b| - i < n then Fail(Truncated) else Got(b[i..i + n], i + n)
  }

  function U8At(b: seq<Byte>, i: nat): (r: Read<Byte>)
    requires i <= |b|
    ensures r.Got? ==> r.next == i + 1 <= |b|
  {
    var (s, j) :- Need(b, i, 1);
    Got(s[0], j)
  }

  function U16At(b: seq<Byte>, i: nat): (r: Read<U16>)
    requires i <= |b|
    ensures r.Got? ==> r.next == i + 2 <= |b|
  {
    var (s, j) :- Need(b, i, 2);
    Got(GetU16(s), j)
  }

  function U32At(b: seq<Byte>, i: nat): (r: Read<U32>)
    requires i <= |b|
    ensures r.Got? ==> r.next == i + 4 <= |b|
  {
    var (s, j) :- Need(b, i, 4);
    Got(GetU32(s), j)
  }

  function I16At(b: seq<Byte>, i: nat): (r: Read<I16>)
    requires i <= |b|
    ensures r.Got? ==> r.next == i + 2 <= |b|
  {
    var (s, j) :- Need(b, i, 2);
    Got(GetI16(s), j)
  }

  function I32At(b: seq<Byte>, i: nat): (r: Read<I32>)
    requires i <= |b|
    ensures r.Got? ==> r.next == i + 4 <= |b|
  {
    var (s, j) :- Need(b, i, 4);
    Got(GetI32(s), j)
  }

  function I64At(b: seq<Byte>, i: nat): (r: Read<I64>)
    requires i <= |b|
    ensures r.Got? ==> r.next == i + 8 <= |b|
  {
    var (s, j) :- Need(b, i, 8);
    Got(GetI64(s), j)
  }

  function F64At(b: seq<Byte>, i: nat): (r: Read<F64>)
    requires i <= |b|
    ensures r.Got? ==> r.next == i + 8 <= |b|
  {
    var (s, j) :- Need(b, i, 8);
    Got(s, j)
  }

  function UuidAt(b: seq<Byte>, i: nat): (r: Read<Uid>)
    requires i <= |b|
    ensures r.Got? ==> r.next == i + 16 <= |b|
  {
    var (s, j) :- Need(b, i, 16);
    Got(Uid(s), j)
  }

  /** The nil UUID reads as absent. */
  function UuidOptAt(b: seq<Byte>, i: nat): (r: Read<Option<Uid>>)
    requires i <= |b|
    ensures r.Got? ==> r.next == i + 16 <= |b|
  {
    var (s, j) :- Need(b, i, 16);
    Got(if s == NIL then None else Some(Uid(s)), j)
  }

  function BytesAt(b: seq<Byte>, i: nat): (r: Read<seq<Byte>>)
    requires i <= |b|
    ensures r.Got? ==> i <= r.next <= |b|
  {
    var (n, j) :- U16At(b, i);
    if n > MAX_STRING then Fail(Invalid) else Need(b, j, n)
  }

  function StrAt(b: seq<Byte>, i: nat): (r: Read<Str>)
    requires i <= |b|
    ensures r.Got? ==> i <= r.next <= |b|
  {
    var (s, j) :- BytesAt(b, i);
    if ValidUtf8(s) then Got(s, j) else Fail(Invalid)
  }

  // ---- What the writers put ----

  function UidBytes(u: Uid): Uuid {
    match u
    case Uid(s) => s
    case _ => NIL
  }

  /** put_str and put_bytes both stop after 4096 bytes. */
  function Cut(s: seq<Byte>): (r: seq<Byte>)
    ensures |r| <= MAX_STRING && r <= s
  {
    if |s| <= MAX_STRING then s else s[..MAX_STRING]
  }

  function PutBytes(s: seq<Byte>): seq<Byte> {
    PutU16(|Cut(s)|) + Cut(s)
  }

  // ---- Reading back what was written ----

  /** `x` sits in `b` at cursor `i`. */
  predicate At(b: seq<Byte>, i: nat, x: seq<Byte>) {
    i + |x| <= |b| && b[i..i + |x|] == x
  }

  lemma AtSplit(b: seq<Byte>, i: nat, x: seq<Byte>, y: seq<Byte>)
    ensures At(b, i, x + y) <==> At(b, i, x) && At(b, i + |x|, y)
  {
    if At(b, i, x + y) {
      assert b[i..i + |x|] == (x + y)[..|x|] == x;
      assert b[i + |x|..i + |x| + |y|] == (x + y)[|x|..] == y;
    }
    if At(b, i, x) && At(b, i + |x|, y) {
      assert b[i..i + |x + y|] == b[i..i + |x|] + b[i + |x|..i + |x| + |y|];
    }
  }

  lemma U8Back(b: seq<Byte>, i: nat, v: Byte)
    requires At(b, i, [v])
    ensures U8At(b, i) == Got(v, i + 1)
  {
  }

  lemma U16Back(b: seq<Byte>, i: nat, v: U16)
    requires At(b, i, PutU16(v))
    ensures U16At(b, i) == Got(v, i + 2)
  {
    GetPutU16(v);
  }

  lemma U32Back(b: seq<Byte>, i: nat, v: U32)
    requires At(b, i, PutU32(v))
    ensures U32At(b, i) == Got(v, i + 4)
  {
    GetPutU32(v);
  }

  lemma I16Back(b: seq<Byte>, i: nat, v: I16)
    requires At(b, i, PutI16(v))
    ensures I16At(b, i) == Got(v, i + 2)
  {
    GetPutSigned(v, 0, 0);
  }

  lemma I32Back(b: seq<Byte>, i: nat, v: I32)
    requires At(b, i, PutI32(v))
    ensures I32At(b, i) == Got(v, i + 4)
  {
    GetPutSigned(0, v, 0);
  }

  lemma I64Back(b: seq<Byte>, i: nat, v: I64)
    requires At(b, i, PutI64(v))
    ensures I64At(b, i) == Got(v, i + 8)
  {
    GetPutSigned(0, 0, v);
  }

  lemma UidBack(b: seq<Byte>, i: nat, u: Uid)
    requires At(b, i, UidBytes(u))
    ensures UuidAt(b, i) == Got(Uid(UidBytes(u)), i + 16)
    ensures UuidOptAt(b, i) == Got(if UidBytes(u) == NIL then None else Some(u), i + 16)
  {
  }

  /** A string comes back whole up to 4096 bytes; a longer one comes back cut, unless the cut
      splits a character, in which case the reader refuses it. */
  lemma BytesBack(b: seq<Byte>, i: nat, s: seq<Byte>)
    requires At(b, i, PutBytes(s))
    ensures BytesAt(b, i) == Got(Cut(s), i + |PutBytes(s)|)
    ensures StrAt(b, i) == if ValidUtf8(Cut(s)) then Got(Cut(s), i + |PutBytes(s)|) else Fail(Invalid)
  {
    AtSplit(b, i, PutU16(|Cut(s)|), Cut(s));
    U16Back(b, i, |Cut(s)|);
  }

  // ---- Running out of input ----

  /** What a read on the first `limit` bytes says about the same read on the whole buffer: it
      gives the same answer unless it runs out, and then the whole read needs more than `limit`. */
  ghost predicate Consistent<T>(short: Read<T>, whole: Read<T>, limit: nat) {
    if short == Fail(Truncated) then whole.Got? ==> whole.next > limit else short == whole
  }

  lemma NeedConsistent(b: seq<Byte>, k: nat, i: nat, n: nat)
    requires i <= k <= |b|
    ensures Consistent(Need(b[..k], i, n), Need(b, i, n), k)
  {
    if i + n <= k {
      assert b[..k][i..i + n] == b[i..i + n];
    }
  }

  lemma U8Consistent(b: seq<Byte>, k: nat, i: nat)
    requires i <= k <= |b|
    ensures Consistent(U8At(b[..k], i), U8At(b, i), k)
  {
    hide Need;
    NeedConsistent(b, k, i, 1);
  }

  lemma U16Consistent(b: seq<Byte>, k: nat, i: nat)
    requires i <= k <= |b|
    ensures Consistent(U16At(b[..k], i), U16At(b, i), k)
  {
    hide Need;
    NeedConsistent(b, k, i, 2);
  }

  lemma U32Consistent(b: seq<Byte>, k: nat, i: nat)
    requires i <= k <= |b|
    ensures Consistent(U32At(b[..k], i), U32At(b, i), k)
  {
    hide Need;
    NeedConsistent(b, k, i, 4);
  }

  lemma I16Consistent(b: seq<Byte>, k: nat, i: nat)
    requires i <= k <= |b|
    ensures Consistent(I16At(b[..k], i), I16At(b, i), k)
  {
    hide Need;
    NeedConsistent(b, k, i, 2);
  }

  lemma I32Consistent(b: seq<Byte>, k: nat, i: nat)
    requires i <= k <= |b|
    ensures Consistent(I32At(b[..k], i), I32At(b, i), k)
  {
    hide Need;
    NeedConsistent(b, k, i, 4);
  }

  lemma I64Consistent(b: seq<Byte>, k: nat, i: nat)
    requires i <= k <= |b|
    ensures Consistent(I64At(b[..k], i), I64At(b, i), k)
  {
    hide Need;
    NeedConsistent(b, k, i, 8);
  }

  lemma F64Consistent(b: seq<Byte>, k: nat, i: nat)
    requires i <= k <= |b|
    ensures Consistent(F64At(b[..k], i), F64At(b, i), k)
  {
    hide Need;
    NeedConsistent(b, k, i, 8);
  }

  lemma UuidConsistent(b: seq<Byte>, k: nat, i: nat)
    requires i <= k <= |b|
    ensures Consistent(UuidAt(b[..k], i), UuidAt(b, i), k)
  {
    hide Need;
    NeedConsistent(b, k, i, 16);
  }

  lemma UuidOptConsistent(b: seq<Byte>, k: nat, i: nat)
    requires i <= k <= |b|
    ensures Consistent(UuidOptAt(b[..k], i), UuidOptAt(b, i), k)
  {
    hide Need;
    NeedConsistent(b, k, i, 16);
  }

  lemma BytesConsistent(b: seq<Byte>, k: nat, i: nat)
    requires i <= k <= |b|
    ensures Consistent(BytesAt(b[..k], i), BytesAt(b, i), k)
  {
    hide U16At, Need;
    U16Consistent(b, k, i);
    var n := U16At(b[..k], i);
    if n.Got? {
      NeedConsistent(b, k, n.next, n.value);
    }
  }

  lemma StrConsistent(b: seq<Byte>, k: nat, i: nat)
    requires i <= k <= |b|
    ensures Consistent(StrAt(b[..k], i), StrAt(b, i), k)
  {
    hide BytesAt, ValidUtf8;
    BytesConsistent(b, k, i);
  }

  // ---- The reader itself ----

  class Reader {
    const bytes: seq<Byte>
    var pos: nat

    ghost predicate Valid()
      reads this
    {
      pos <= |bytes|
    }

    /** What a read left behind: on success the cursor moved to the function's `next`. */
    ghost predicate Took<T>(spec: Read<T>, r: Result<T, DecodeError>)
      reads this
    {
      && pos <= |bytes|
      && r == spec.Outcome()
      && (spec.Got? ==> pos == spec.next)
    }

    constructor (b: seq<Byte>)
      ensures bytes == b && pos == 0 && Valid()
    {
      bytes, pos := b, 0;
    }

    method TakeBytes(n: nat) returns (r: Result<seq<Byte>, DecodeError>)
      requires Valid()
      modifies this
      ensures Took(Need(bytes, old(pos), n), r)
    {
      if |bytes| - pos < n {
        return Err(Truncated);
      }
      r := Ok(bytes[pos..pos + n]);
      pos := pos + n;
    }

    method U8() returns (r: Result<Byte, DecodeError>)
      requires Valid()
      modifies this
      ensures Took(U8At(bytes, old(pos)), r)
    {
      var s :- TakeBytes(1);
      r := Ok(s[0]);
    }

    method U16() returns (r: Result<U16, DecodeError>)
      requires Valid()
      modifies this
      ensures Took(U16At(bytes, old(pos)), r)
    {
      var s :- TakeBytes(2);
      r := Ok(GetU16(s));
    }

    method U32() returns (r: Result<U32, DecodeError>)
      requires Valid()
      modifies this
      ensures Took(U32At(bytes, old(pos)), r)
    {
      var s :- TakeBytes(4);
      r := Ok(GetU32(s));
    }

    method I16() returns (r: Result<I16, DecodeError>)
      requires Valid()
      modifies this
      ensures Took(I16At(bytes, old(pos)), r)
    {
      var s :- TakeBytes(2);
      r := Ok(GetI16(s));
    }

    method I32() returns (r: Result<I32, DecodeError>)
      requires Valid()
      modifies this
      ensures Took(I32At(bytes, old(pos)), r)
    {
      var s :- TakeBytes(4);
      r := Ok(GetI32(s));
    }

    method I64() returns (r: Result<I64, DecodeError>)
      requires Valid()
      modifies this
      ensures Took(I64At(bytes, old(pos)), r)
    {
      var s :- TakeBytes(8);
      r := Ok(GetI64(s));
    }

    method F64() returns (r: Result<F64, DecodeError>)
      requires Valid()
      modifies this
      ensures Took(F64At(bytes, old(pos)), r)
    {
      var s :- TakeBytes(8);
      r := Ok(s);
    }

    method Uuid() returns (r: Result<Uid, DecodeError>)
      requires Valid()
      modifies this
      ensures Took(UuidAt(bytes, old(pos)), r)
    {
      var s :- TakeBytes(16);
      r := Ok(Uid(s));
    }

    method UuidOpt() returns (r: Result<Option<Uid>, DecodeError>)
      requires Valid()
      modifies this
      ensures Took(UuidOptAt(bytes, old(pos)), r)
    {
      var s :- TakeBytes(16);
      r := Ok(if s == NIL then None else Some(Uid(s)));
    }

    method LenBytes() returns (r: Result<seq<Byte>, DecodeError>)
      requires Valid()
      modifies this
      ensures Took(BytesAt(bytes, old(pos)), r)
    {
      var n :- U16();
      if n > MAX_STRING {
        return Err(Invalid);
      }
      r := TakeBytes(n);
    }

    method LenStr() returns (r: Result<Str, DecodeError>)
      requires Valid()
      modifies this
      ensures Took(StrAt(bytes, old(pos)), r)
    {
      var s :- LenBytes();
      r := if ValidUtf8(s) then Ok(s) else Err(Invalid);
    }
  }
}
