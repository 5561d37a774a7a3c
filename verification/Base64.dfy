/** Base64 encoding of the WebSocket handshake key (section 4 of RFC 4648). */
module Base64 {
  import opened Bytes

  /** The alphabet: A-Z, a-z, 0-9, + and /. */
  function Symbol(v: nat): char
    requires v < 64
  {
    if v < 26 then 'A' + v as char
    else if v < 52 then 'a' + (v - 26) as char
    else if v < 62 then '0' + (v - 52) as char
    else if v == 62 then '+'
    else '/'
  }

  predicate InAlphabet(c: char) {
    'A' <= c <= 'Z' || 'a' <= c <= 'z' || '0' <= c <= '9' || c == '+' || c == '/'
  }

  /** Six bits out of a 24-bit group. */
  function Sextet(triple: nat, k: nat): (v: nat)
    requires k < 4
    ensures v < 64
  {
    match k
    case 0 => triple / 0x40000 % 64
    case 1 => triple / 0x1000 % 64
    case 2 => triple / 64 % 64
    case _ => triple % 64
  }

  function Triple(a: byte, b: byte, c: byte): nat {
    a as int * 65536 + b as int * 256 + c as int
  }

  /** Four characters for the one, two or three bytes at the front of s. */
  function Group(s: seq<byte>): (g: seq<char>)
    requires s != []
    ensures |g| == 4
  {
    var t := Triple(s[0], if |s| > 1 then s[1] else 0, if |s| > 2 then s[2] else 0);
    [Symbol(Sextet(t, 0)), Symbol(Sextet(t, 1)),
     if |s| > 1 then Symbol(Sextet(t, 2)) else '=',
     if |s| > 2 then Symbol(Sextet(t, 3)) else '=']
  }

  function Encoded(s: seq<byte>): seq<char> {
    if s == [] then [] else Group(s) + Encoded(s[if |s| < 3 then |s| else 3..])
  }

  function GroupsOf(n: nat): nat { (n + 2) / 3 }

  lemma GroupAlphabet(s: seq<byte>)
    requires s != []
    ensures forall k :: 0 <= k < 4 ==> Group(s)[k] == '=' || InAlphabet(Group(s)[k])
  {
    hide Sextet, Triple;
  }

  /** Four characters for every three bytes begun, all from the alphabet or padding. */
  lemma {:induction false} EncodedLength(s: seq<byte>)
    ensures |Encoded(s)| == 4 * GroupsOf(|s|)
    ensures forall k :: 0 <= k < |Encoded(s)| ==> Encoded(s)[k] == '=' || InAlphabet(Encoded(s)[k])
  {
    hide Group, InAlphabet;
    if s != [] {
      GroupAlphabet(s);
      EncodedLength(s[if |s| < 3 then |s| else 3..]);
    }
  }

  // ---- Reference decoder -----------------------------------------------------------------

  function ValueOf(c: char): nat {
    if 'A' <= c <= 'Z' then c as int - 'A' as int
    else if 'a' <= c <= 'z' then c as int - 'a' as int + 26
    else if '0' <= c <= '9' then c as int - '0' as int + 52
    else if c == '+' then 62
    else 63
  }

  lemma SymbolInverse(v: nat)
    requires v < 64
    ensures ValueOf(Symbol(v)) == v && Symbol(v) != '='
  {
  }

  /** The bytes of one group of four characters; '=' pads. */
  function GroupBytes(g: seq<char>): seq<byte>
    requires |g| == 4
  {
    var t := (ValueOf(g[0]) * 0x40000 + ValueOf(g[1]) * 0x1000
              + (if g[2] == '=' then 0 else ValueOf(g[2])) * 64
                  + (if g[3] == '=' then 0 else ValueOf(g[3]))) % 0x1000000;
    var b := [(t / 65536) as byte, (t / 256 % 256) as byte, (t % 256) as byte];
    if g[2] == '=' then b[..1] else if g[3] == '=' then b[..2] else b
  }

  function Decoded(t: seq<char>): seq<byte> {
    if |t| < 4 then [] else GroupBytes(t[..4]) + Decoded(t[4..])
  }

  lemma SextetsJoin(t: nat)
    requires t < 0x1000000
    ensures Sextet(t, 0) * 0x40000 + Sextet(t, 1) * 0x1000 + Sextet(t, 2) * 64 + Sextet(t, 3) == t
  {
    var u, v := t / 64, t / 0x1000;
    assert u / 64 == v && v / 64 == t / 0x40000 < 64;
    assert t == u * 64 + t % 64 && u == v * 64 + u % 64 && v == v / 64 * 64 + v % 64;
  }

  lemma TripleParts(a: byte, b: byte, c: byte)
    ensures var t := Triple(a, b, c);
            && t < 0x1000000 && (t / 65536) as byte == a && (t / 256 % 256) as byte == b && (t % 256) as byte == c
  {
    var x, y, z := a as int, b as int, c as int;
    ModUnique(Triple(a, b, c), x, y * 256 + z, 65536);
    ModUnique(Triple(a, b, c), x * 256 + y, z, 256);
    ModUnique(x * 256 + y, x, y, 256);
  }

  /** Bytes that are not there leave their sextets 0. */
  lemma PaddingIsZero(a: byte, b: byte)
    ensures Sextet(Triple(a, b, 0), 3) == 0 && Sextet(Triple(a, 0, 0), 2) == 0
  {
    var x, y := a as int, b as int;
    ModUnique(Triple(a, b, 0), x * 1024 + y * 4, 0, 64);
    ModUnique(Triple(a, 0, 0), x * 1024, 0, 64);
    ModUnique(x * 1024, x * 16, 0, 64);
  }

  lemma GroupRoundTrip(s: seq<byte>)
    requires s != []
    ensures GroupBytes(Group(s)) == s[..if |s| < 3 then |s| else 3]
  {
    hide Sextet, Triple, ValueOf, Symbol;
    var b: byte := if |s| > 1 then s[1] else 0;
    var c: byte := if |s| > 2 then s[2] else 0;
    var t := Triple(s[0], b, c);
    TripleParts(s[0], b, c);
    SextetsJoin(t);
    PaddingIsZero(s[0], b);
    SymbolInverse(Sextet(t, 0));
    SymbolInverse(Sextet(t, 1));
    SymbolInverse(Sextet(t, 2));
    SymbolInverse(Sextet(t, 3));
    assert t % 0x1000000 == t;
  }

  /** Any bytes are recovered from their encoding. */
  lemma {:induction false} RoundTrip(s: seq<byte>)
    ensures Decoded(Encoded(s)) == s
  {
    if s == [] {
    } else {
      var k := if |s| < 3 then |s| else 3;
      RoundTrip(s[k..]);
      GroupRoundTrip(s);
      assert Encoded(s)[..4] == Group(s) && Encoded(s)[4..] == Encoded(s[k..]);
      assert s == s[..k] + s[k..];
    }
  }

  lemma {:induction false} Injective(a: seq<byte>, b: seq<byte>)
    requires Encoded(a) == Encoded(b)
    ensures a == b
  {
    RoundTrip(a);
    RoundTrip(b);
  }

  // ---- The encoding loop -------------------------------------------------------------------

  /** What a 16-bit output index makes of an encoding longer than 65536 characters: the
      characters that do not fit overwrite the first ones. */
  function Wrapped(e: seq<char>): seq<char> {
    if |e| <= 65536 then e
    else if |e| <= 131072 then e[65536..] + e[|e| - 65536..65536]
    else []
  }

  /** The whole encoding is written exactly when the input has at most 49152 bytes. */
  lemma {:induction false} FitsExactly(s: seq<byte>)
    requires |s| < 65536
    ensures |Wrapped(Encoded(s))| == 4 * GroupsOf(|s|) <==> |s| <= 49152
    ensures |s| <= 49152 ==> Wrapped(Encoded(s)) == Encoded(s)
  {
    hide Wrapped, Encoded;
    EncodedLength(s);
    WrappedLength(Encoded(s));
  }

  lemma {:induction false} EncodedJoin(a: seq<byte>, b: seq<byte>)
    requires |a| % 3 == 0
    ensures Encoded(a + b) == Encoded(a) + Encoded(b)
  {
    hide Group;
    if a == [] {
      assert a + b == b;
    } else {
      assert (a + b)[3..] == a[3..] + b;
      GroupPrefix(a, b);
      EncodedJoin(a[3..], b);
    }
  }

  lemma GroupPrefix(a: seq<byte>, b: seq<byte>)
    requires |a| >= 3
    ensures Group(a + b) == Group(a)
  {
  }

  lemma OneGroup(s: seq<byte>)
    requires 0 < |s| <= 3
    ensures Encoded(s) == Group(s)
  {
    hide Group;
    assert s[|s|..] == [];
  }

  /** The buffer after the encoding of some input has been written to it. */
  predicate Holds(out: seq<char>, e: seq<char>, before: seq<char>) {
    |Wrapped(e)| <= |out| == |before| && out == Wrapped(e) + before[|Wrapped(e)|..]
  }

  function PutGroup(out: seq<char>, j: nat, g: seq<char>): seq<char>
    requires |g| == 4 && j + 4 <= |out|
  {
    out[..j] + g + out[j + 4..]
  }

  /** One more group goes where the 16-bit index points. */
  lemma GroupWritten(out: seq<char>, e: seq<char>, g: seq<char>, before: seq<char>)
    requires Holds(out, e, before) && |g| == 4 && |e| % 4 == 0 && |e| + 4 <= 131072 && |Wrapped(e + g)| <= |out|
    ensures |e| % 65536 + 4 <= |out| && Holds(PutGroup(out, |e| % 65536, g), e + g, before)
  {
    var n, w, f := |e|, Wrapped(e), e + g;
    if n < 65536 {
      assert n + 4 <= 65536;
      assert PutGroup(out, n, g) == f + before[n + 4..];
    } else {
      var k := n - 65536;
      assert n % 65536 == k || k == 65536;
      assert w == e[65536..] + e[k..65536];
      assert f[65536..] == e[65536..] + g && f[k + 4..65536] == e[k + 4..65536];
      assert PutGroup(out, k, g) == e[65536..] + g + e[k + 4..65536] + before[65536..];
    }
  }

  lemma WrappedLength(e: seq<char>)
    requires |e| <= 131072
    ensures |Wrapped(e)| == if |e| <= 65536 then |e| else 65536
    ensures |e| <= 65536 ==> Wrapped(e) == e
  {
  }

  /** The next group extends the encoding of what has been read. */
  lemma NextGroup(s: seq<byte>, i: nat, k: nat)
    requires i % 3 == 0 && i < |s| < 65536 && k == if i + 3 <= |s| then i + 3 else |s|
    ensures Encoded(s[..k]) == Encoded(s[..i]) + Group(s[i..k]) && |Encoded(s[..i])| % 4 == 0
    ensures |Encoded(s[..k])| <= 131072 && |Wrapped(Encoded(s[..k]))| <= |Wrapped(Encoded(s))|
  {
    hide Group, Encoded, Wrapped;
    assert s[..k] == s[..i] + s[i..k];
    EncodedJoin(s[..i], s[i..k]);
    OneGroup(s[i..k]);
    EncodedLength(s[..i]);
    EncodedLength(s[..k]);
    EncodedLength(s);
    WrappedLength(Encoded(s[..k]));
    WrappedLength(Encoded(s));
  }

  lemma NothingWritten(before: seq<char>)
    ensures Holds(before, Encoded([]), before)
  {
  }

  /** The four characters of one round of the loop. */
  method WriteGroup(input: seq<byte>, i: nat, output: array<char>, j: nat)
    requires i < |input| && j + 4 <= output.Length
    modifies output
    ensures output[..] == PutGroup(old(output[..]), j, Group(input[i..if i + 3 <= |input| then i + 3 else |input|]))
  {
    hide Symbol;
    var a := input[i];
    var b: byte := if i + 1 < |input| then input[i + 1] else 0;
    var c: byte := if i + 2 < |input| then input[i + 2] else 0;
    var triple := Triple(a, b, c);
    output[j] := Symbol(Sextet(triple, 0));
    output[j + 1] := Symbol(Sextet(triple, 1));
    output[j + 2] := if i + 1 < |input| then Symbol(Sextet(triple, 2)) else '=';
    output[j + 3] := if i + 2 < |input| then Symbol(Sextet(triple, 3)) else '=';
  }

  /** ws_base64_encode, with its 16-bit output index. */
  method Encode(input: seq<byte>, output: array<char>)
    requires |input| < 65536 && output.Length >= |Wrapped(Encoded(input))|
    modifies output
    ensures Holds(output[..], Encoded(input), old(output[..]))
  {
    hide Holds, Wrapped, Encoded, Group;
    ghost var before := output[..];
    ghost var read := 0;
    NothingWritten(before);
    assert input[..0] == [];
    EncodedLength([]);
    var i, j := 0, 0;
    while i < |input|
      invariant i % 3 == 0 && read == if i <= |input| then i else |input|
      invariant j == |Encoded(input[..read])| % 65536
      invariant Holds(output[..], Encoded(input[..read]), before)
      decreases |input| - i
    {
      ghost var e := Encoded(input[..read]);
      ghost var next := if i + 3 <= |input| then i + 3 else |input|;
      NextGroup(input, i, next);
      GroupWritten(output[..], e, Group(input[i..next]), before);
      WriteGroup(input, i, output, j);
      i, j := i + 3, (j + 4) % 65536;
      read := next;
    }
    assert input[..read] == input;
  }
}
