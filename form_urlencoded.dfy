/** The application/x-www-form-urlencoded serializer of the WHATWG URL
    Standard (section 5.2), which `URLSearchParams.prototype.toString`
    runs, and the splitting half of its parser (section 5.1) as the
    inverse that the query built by the market client is checked against. */
module FormUrlencoded {
  import opened Strings

  /** The code points the form-urlencoded percent-encode set leaves alone. */
  predicate Unreserved(c: char) {
    'a' <= c <= 'z' || 'A' <= c <= 'Z' || '0' <= c <= '9' || c == '*' || c == '-' || c == '.' || c == '_'
  }

  predicate AllUnreserved(s: string) {
    forall k :: 0 <= k < |s| ==> Unreserved(s[k])
  }

  /** The UTF-8 encoding of one scalar value. */
  function Utf8(c: char): (bytes: seq<nat>)
    ensures 1 <= |bytes| <= 4
    ensures forall k :: 0 <= k < |bytes| ==> bytes[k] < 256
    ensures |bytes| == 1 <==> c as int < 0x80
  {
    var cp := c as int;
    if cp < 0x80 then [cp]
    else if cp < 0x800 then [0xC0 + cp / 0x40, 0x80 + cp % 0x40]
    else if cp < 0x10000 then [0xE0 + cp / 0x1000, 0x80 + (cp / 0x40) % 0x40, 0x80 + cp % 0x40]
    else [0xF0 + cp / 0x40000, 0x80 + (cp / 0x1000) % 0x40, 0x80 + (cp / 0x40) % 0x40, 0x80 + cp % 0x40]
  }

  function HexDigit(d: nat): (c: char)
    requires d < 16
  {
    "0123456789ABCDEF"[d]
  }

  /** Percent-encoding of bytes: `%` and two upper-case hexadecimal digits each. */
  function PercentBytes(bytes: seq<nat>): (r: string)
    requires forall k :: 0 <= k < |bytes| ==> bytes[k] < 256
    ensures |r| == 3 * |bytes|
    ensures '&' !in r && '=' !in r
  {
    if |bytes| == 0 then ""
    else ['%', HexDigit(bytes[0] / 16), HexDigit(bytes[0] % 16)] + PercentBytes(bytes[1..])
  }

  /** One code point: space becomes `+`, unreserved code points stay, the rest is percent-encoded. */
  function EncodeChar(c: char): (r: string)
    ensures Unreserved(c) ==> r == [c]
    ensures '&' !in r && '=' !in r
  {
    if c == ' ' then "+"
    else if Unreserved(c) then [c]
    else PercentBytes(Utf8(c))
  }

  /** Percent-encode after encoding with UTF-8, over the form-urlencoded set, space as plus. */
  function Encode(s: string): (r: string)
    ensures '&' !in r && '=' !in r
  {
    if |s| == 0 then "" else EncodeChar(s[0]) + Encode(s[1..])
  }

  lemma {:induction false} EncodeUnreserved(s: string)
    requires AllUnreserved(s)
    ensures Encode(s) == s
  {
    if |s| > 0 {
      EncodeUnreserved(s[1..]);
      assert [s[0]] + s[1..] == s;
    }
  }

  function Entry(name: string, value: string): string {
    Encode(name) + "=" + Encode(value)
  }

  function Entries(tuples: seq<(string, string)>): (r: seq<string>)
    ensures |r| == |tuples|
    ensures forall k :: 0 <= k < |r| ==> r[k] == Entry(tuples[k].0, tuples[k].1)
  {
    if |tuples| == 0 then [] else [Entry(tuples[0].0, tuples[0].1)] + Entries(tuples[1..])
  }

  /** The serializer: the entries `name=value`, in list order, separated by `&`. Splitting
      its output gives back every tuple, in order, in its encoded form. */
  function Serialize(tuples: seq<(string, string)>): (query: string)
    ensures Parse(query) == EncodedTuples(tuples)
  {
    TuplesOfEntries(tuples);
    if |tuples| == 0 then "" else
      SplitJoin(Entries(tuples), '&');
      Join(Entries(tuples), "&")
  }

  /** A `name=value` sequence split at its first `=`; without one, the value is empty. */
  function SplitAtEquals(s: string): (string, string) {
    if |s| == 0 then ("", "")
    else if s[0] == '=' then ("", s[1..])
    else
      var (n, v) := SplitAtEquals(s[1..]);
      ([s[0]] + n, v)
  }

  lemma {:induction false} SplitAtEqualsEntry(n: string, v: string)
    requires '=' !in n
    ensures SplitAtEquals(n + "=" + v) == (n, v)
  {
    if |n| == 0 {
      assert n + "=" + v == "=" + v;
    } else {
      assert (n + "=" + v)[1..] == n[1..] + "=" + v;
      SplitAtEqualsEntry(n[1..], v);
      assert [n[0]] + n[1..] == n;
    }
  }

  /** The parser's tuples from the `&`-separated sequences, empty sequences skipped. */
  function TuplesOf(sequences: seq<string>): seq<(string, string)> {
    if |sequences| == 0 then []
    else if sequences[0] == "" then TuplesOf(sequences[1..])
    else [SplitAtEquals(sequences[0])] + TuplesOf(sequences[1..])
  }

  /** The parser without its `+`-to-space and percent-decoding steps. */
  function Parse(input: string): seq<(string, string)> {
    TuplesOf(Split(input, '&'))
  }

  function EncodedTuples(tuples: seq<(string, string)>): (r: seq<(string, string)>)
    ensures |r| == |tuples|
    ensures forall k :: 0 <= k < |r| ==> r[k] == (Encode(tuples[k].0), Encode(tuples[k].1))
  {
    if |tuples| == 0 then [] else [(Encode(tuples[0].0), Encode(tuples[0].1))] + EncodedTuples(tuples[1..])
  }

  lemma {:induction false} TuplesOfEntries(tuples: seq<(string, string)>)
    ensures TuplesOf(Entries(tuples)) == EncodedTuples(tuples)
  {
    if |tuples| > 0 {
      var e := Entries(tuples);
      assert e[1..] == Entries(tuples[1..]);
      SplitAtEqualsEntry(Encode(tuples[0].0), Encode(tuples[0].1));
      TuplesOfEntries(tuples[1..]);
    }
  }

  /** The entries written out with no encoding at all. */
  function PlainEntries(tuples: seq<(string, string)>): seq<string> {
    seq(|tuples|, k requires 0 <= k < |tuples| => tuples[k].0 + "=" + tuples[k].1)
  }

  /** For names and values of unreserved code points the serializer is a plain join and the
      splitter recovers the tuples exactly. */
  lemma {:induction false} SerializeUnreserved(tuples: seq<(string, string)>)
    requires forall k :: 0 <= k < |tuples| ==> AllUnreserved(tuples[k].0) && AllUnreserved(tuples[k].1)
    ensures EncodedTuples(tuples) == tuples
    ensures Serialize(tuples) == Join(PlainEntries(tuples), "&")
    ensures Parse(Serialize(tuples)) == tuples
  {
    forall k | 0 <= k < |tuples|
      ensures EncodedTuples(tuples)[k] == tuples[k]
      ensures Entries(tuples)[k] == PlainEntries(tuples)[k]
    {
      EncodeUnreserved(tuples[k].0);
      EncodeUnreserved(tuples[k].1);
    }
    assert Entries(tuples) == PlainEntries(tuples);
  }
}
