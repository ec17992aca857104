/** Little-endian words in a byte sequence, as both example journals store them. */
module Words {
  import opened Types
  import opened Divisions

  type Byte = x: int | 0 <= x < 256

  function Pow256(n: nat): (r: nat)
    ensures r > 0
  {
    if n == 0 then 1 else 256 * Pow256(n - 1)
  }

  function ToLe(v: nat, n: nat): (s: seq<Byte>)
    ensures |s| == n
  {
    if n == 0 then [] else [v % 256] + ToLe(v / 256, n - 1)
  }

  function FromLe(s: seq<Byte>): nat {
    if s == [] then 0 else s[0] + 256 * FromLe(s[1..])
  }

  lemma {:induction false} LeRoundTrip(v: nat, n: nat)
    requires v < Pow256(n)
    ensures FromLe(ToLe(v, n)) == v
    decreases n
  {
    if n > 0 {
      LeRoundTrip(v / 256, n - 1);
      assert ToLe(v, n)[1..] == ToLe(v / 256, n - 1);
    }
  }

  /** The byte at place k counts 256 to the k: the lowest comes first. */
  lemma {:induction false} LittleEndian(v: nat, n: nat, k: nat)
    requires k < n
    ensures ToLe(v, n)[k] == v / Pow256(k) % 256
    decreases k
  {
    if k > 0 {
      LittleEndian(v / 256, n - 1, k - 1);
      DivideTwice(v, Pow256(k - 1));
    }
  }

  lemma DivideTwice(v: nat, d: nat)
    requires d > 0
    ensures v / 256 / d == v / (256 * d)
  {
    var q, r := v / 256 / d, v / 256 % d;
    assert v == 256 * (d * q + r) + v % 256;
    var s := 256 * r + v % 256;
    assert v == (256 * d) * q + s;
    assert 0 <= s < 256 * d;
    Unique(v, 256 * d, q, s);
  }

  lemma {:induction false} FromLeBound(s: seq<Byte>)
    ensures FromLe(s) < Pow256(|s|)
    decreases |s|
  {
    if s != [] {
      FromLeBound(s[1..]);
    }
  }

  lemma {:induction false} LeBack(s: seq<Byte>)
    ensures ToLe(FromLe(s), |s|) == s
    decreases |s|
  {
    if s != [] {
      LeBack(s[1..]);
      assert FromLe(s) % 256 == s[0] && FromLe(s) / 256 == FromLe(s[1..]);
      assert s == [s[0]] + s[1..];
    }
  }

  lemma EightBytes()
    ensures Pow256(8) == MAX_U64 + 1
  {
    assert Pow256(1) == 256;
    assert Pow256(2) == 256 * Pow256(1);
    assert Pow256(3) == 256 * Pow256(2);
    assert Pow256(4) == 256 * Pow256(3);
    assert Pow256(5) == 256 * Pow256(4);
    assert Pow256(6) == 256 * Pow256(5);
    assert Pow256(7) == 256 * Pow256(6);
  }

  lemma FourBytes()
    ensures Pow256(4) == 0x1_0000_0000
  {
    assert Pow256(1) == 256;
    assert Pow256(2) == 256 * Pow256(1);
    assert Pow256(3) == 256 * Pow256(2);
  }

  function WordAt(bytes: seq<Byte>, at: nat): U64
    requires at + 8 <= |bytes|
  {
    FromLeBound(bytes[at..at + 8]);
    EightBytes();
    FromLe(bytes[at..at + 8])
  }

  /** Words written one after another. */
  function Flat(ws: seq<U64>): (s: seq<Byte>)
    ensures |s| == 8 * |ws|
  {
    if ws == [] then [] else ToLe(ws[0], 8) + Flat(ws[1..])
  }

  /** The words of a byte sequence whose length is a multiple of eight. */
  function WordsIn(bytes: seq<Byte>): (ws: seq<U64>)
    requires |bytes| % 8 == 0
    ensures 8 * |ws| == |bytes|
    decreases |bytes|
  {
    if bytes == [] then [] else [WordAt(bytes, 0)] + WordsIn(bytes[8..])
  }

  /** Reading back what was written. */
  lemma {:induction false} WordsRoundTrip(ws: seq<U64>)
    ensures WordsIn(Flat(ws)) == ws
    decreases |ws|
  {
    if ws != [] {
      EightBytes();
      LeRoundTrip(ws[0], 8);
      assert Flat(ws)[0..8] == ToLe(ws[0], 8);
      assert Flat(ws)[8..] == Flat(ws[1..]);
      WordsRoundTrip(ws[1..]);
    }
  }

  /** Word k is at byte 8k. */
  lemma {:induction false} WordsAt(bytes: seq<Byte>, k: nat)
    requires |bytes| % 8 == 0 && 8 * k < |bytes|
    ensures 8 * k + 8 <= |bytes| && k < |WordsIn(bytes)|
    ensures WordsIn(bytes)[k] == WordAt(bytes, 8 * k)
    decreases k
  {
    if k > 0 {
      WordsAt(bytes[8..], k - 1);
      assert bytes[8..][8 * (k - 1)..8 * (k - 1) + 8] == bytes[8 * k..8 * k + 8];
    } else {
      assert bytes[0..8] == bytes[8 * k..8 * k + 8];
    }
  }

  // ---- Reading from the front.

  datatype Read<+T> = Read(value: T, rest: seq<U64>) | Bad

  function ReadWord(ws: seq<U64>): Read<U64> {
    if ws == [] then Bad else Read(ws[0], ws[1..])
  }

  function ReadFlag(ws: seq<U64>): Read<bool> {
    if ws == [] || ws[0] > 1 then Bad else Read(ws[0] == 1, ws[1..])
  }

  function FlagWord(b: bool): U64 { if b then 1 else 0 }

  lemma ReadBack(w: U64, rest: seq<U64>)
    ensures ReadWord([w] + rest) == Read(w, rest)
    ensures w <= 1 ==> ReadFlag([w] + rest) == Read(w == 1, rest)
  {
    assert ([w] + rest)[1..] == rest;
  }

  // ---- Optional words.

  /** One value after another, as many as were announced. */
  function ReadMany<T>(read: seq<U64> -> Read<T>, ws: seq<U64>, count: nat): Read<seq<T>>
    decreases count
  {
    if count == 0 then Read([], ws)
    else
      match read(ws)
      case Bad => Bad
      case Read(e, rest) =>
        match ReadMany(read, rest, count - 1)
        case Bad => Bad
        case Read(es, rest1) => Read([e] + es, rest1)
  }

  /** Reading one more value of those still to come. */
  lemma MoreRead<T>(read: seq<U64> -> Read<T>, done: seq<T>, ws: seq<U64>, count: nat, whole: Read<seq<T>>)
    requires whole == match ReadMany(read, ws, count) case Bad => Bad case Read(es, rest) => Read(done + es, rest)
    requires count > 0
    ensures read(ws).Bad? ==> whole.Bad?
    ensures read(ws).Read? ==>
              whole == match ReadMany(read, read(ws).rest, count - 1)
                       case Bad => Bad
                       case Read(es, rest) => Read(done + [read(ws).value] + es, rest)
  {
    if read(ws).Read? && ReadMany(read, read(ws).rest, count - 1).Read? {
      var e, es := read(ws).value, ReadMany(read, read(ws).rest, count - 1).value;
      assert done + ([e] + es) == done + [e] + es;
    }
  }

  function OptionWords(w: Option<U64>): seq<U64> {
    if w.Some? then [1, w.value] else [0]
  }

  function ReadOption(ws: seq<U64>): Read<Option<U64>> {
    match ReadFlag(ws)
    case Bad => Bad
    case Read(present, rest) =>
      if !present then Read(None, rest)
      else match ReadWord(rest) case Bad => Bad case Read(w, rest1) => Read(Some(w), rest1)
  }

  lemma OptionBack(w: Option<U64>, rest: seq<U64>)
    ensures ReadOption(OptionWords(w) + rest) == Read(w, rest)
  {
    var ws := OptionWords(w) + rest;
    if w.Some? {
      assert ws[1..][1..] == rest;
    } else {
      assert ws[1..] == rest;
    }
  }

  // ---- Reading with a cursor over the bytes.

  /** The whole words from word k on. */
  ghost function Rest(bytes: seq<Byte>, k: nat): seq<U64>
    requires k <= |bytes| / 8
  {
    WordsIn(bytes[..8 * (|bytes| / 8)])[k..]
  }

  /** A cursor that read what a parser of the words reads. */
  ghost predicate Took<T>(read: Read<T>, bytes: seq<Byte>, got: Option<(T, nat)>) {
    match read
    case Bad => got.None?
    case Read(v, rest) =>
      && got.Some? && got.value.0 == v && got.value.1 <= |bytes| / 8 && rest == Rest(bytes, got.value.1)
  }

  method TakeWord(bytes: seq<Byte>, k: nat) returns (got: Option<(U64, nat)>)
    requires k <= |bytes| / 8
    ensures Took(ReadWord(Rest(bytes, k)), bytes, got)
    ensures got.Some? ==> got.value.1 == k + 1 && Rest(bytes, k) == [got.value.0] + Rest(bytes, k + 1)
  {
    ghost var whole := bytes[..8 * (|bytes| / 8)];
    if 8 * k + 8 > |bytes| {
      return None;
    }
    WordsAt(whole, k);
    assert whole[8 * k..8 * k + 8] == bytes[8 * k..8 * k + 8];
    return Some((WordAt(bytes, 8 * k), k + 1));
  }

  method TakeFlag(bytes: seq<Byte>, k: nat) returns (got: Option<(bool, nat)>)
    requires k <= |bytes| / 8
    ensures Took(ReadFlag(Rest(bytes, k)), bytes, got)
  {
    var w := TakeWord(bytes, k);
    if w.None? || w.value.0 > 1 {
      return None;
    }
    return Some((w.value.0 == 1, w.value.1));
  }

  /** Writing the words one after another. */
  method Flatten(words: seq<U64>) returns (bytes: seq<Byte>)
    ensures bytes == Flat(words)
  {
    bytes := [];
    assert words[0..] == words;
    for i := 0 to |words|
      invariant bytes + Flat(words[i..]) == Flat(words)
    {
      assert words[i..][0] == words[i] && words[i..][1..] == words[i + 1..];
      assert bytes + Flat(words[i..]) == (bytes + ToLe(words[i], 8)) + Flat(words[i + 1..]);
      bytes := bytes + ToLe(words[i], 8);
    }
    assert words[|words|..] == [] && bytes + [] == bytes;
  }

  method TakeOption(bytes: seq<Byte>, k: nat) returns (got: Option<(Option<U64>, nat)>)
    requires k <= |bytes| / 8
    ensures Took(ReadOption(Rest(bytes, k)), bytes, got)
  {
    var present := TakeFlag(bytes, k);
    if present.None? {
      return None;
    }
    if !present.value.0 {
      return Some((None, present.value.1));
    }
    var w := TakeWord(bytes, present.value.1);
    if w.None? {
      return None;
    }
    return Some((Some(w.value.0), w.value.1));
  }

  lemma RestSize(bytes: seq<Byte>, k: nat)
    requires k <= |bytes| / 8
    ensures |Rest(bytes, k)| == |bytes| / 8 - k
    ensures Rest(bytes, k) == [] <==> k == |bytes| / 8
  {
  }

  lemma FlatSize(ws: seq<U64>)
    ensures |Flat(ws)| == 8 * |ws|
  {
  }
}
