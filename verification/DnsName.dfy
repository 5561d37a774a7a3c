/** Domain names on the wire (sections 3.1 and 4.1.4 of RFC 1035): checking, encoding,
    decoding and skipping. Characters are their ASCII codes. */
module DnsName {
  import opened Buffers
  import opened Bytes

  const DOT: byte := 46
  const DASH: byte := 45
  const MAX_NAME: nat := 253
  const MAX_LABEL: nat := 63
  const MAX_PACKET: nat := 512
  const MAX_JUMPS: nat := 10

  datatype Error = INVALID_PARAM | FORMAT | SERVER_ERROR | NAME_NOT_FOUND
  datatype Result<T> = Ok(value: T) | Err(error: Error)

  // ---- Labels ------------------------------------------------------------------------------

  type Label = seq<byte>

  predicate LetterDigitHyphen(c: byte) {
    48 <= c <= 57 || 65 <= c <= 90 || 97 <= c <= 122 || c == DASH
  }

  predicate HostLabel(l: Label) {
    0 < |l| <= MAX_LABEL && forall i :: 0 <= i < |l| ==> LetterDigitHyphen(l[i])
  }

  predicate AllHost(ls: seq<Label>) {
    ls == [] || (HostLabel(ls[0]) && AllHost(ls[1..]))
  }

  /** The first dot from i on, or the end. */
  function DotFrom(h: seq<byte>, i: nat): (k: nat)
    requires i <= |h|
    ensures i <= k <= |h| && (k < |h| ==> h[k] == DOT) && forall j :: i <= j < k ==> h[j] != DOT
    decreases |h| - i
  {
    if i == |h| || h[i] == DOT then i else DotFrom(h, i + 1)
  }

  /** A dotted name cut at its dots. */
  function Split(h: seq<byte>): (ls: seq<Label>)
    ensures ls != []
    decreases |h|
  {
    var k := DotFrom(h, 0);
    if k == |h| then [h] else [h[..k]] + Split(h[k + 1..])
  }

  /** Labels put behind the text so far, with dots between. */
  function Joined(text: seq<byte>, ls: seq<Label>): seq<byte>
    decreases |ls|
  {
    if ls == [] then text else Joined((if text == [] then [] else text + [DOT]) + ls[0], ls[1..])
  }

  /** Length octet and label, again and again, and a zero octet. */
  function Wire(ls: seq<Label>): seq<byte>
    requires forall i :: 0 <= i < |ls| ==> |ls[i]| < 256
  {
    if ls == [] then [0] else [|ls[0]| as byte] + ls[0] + Wire(ls[1..])
  }

  predicate WireLabels(ls: seq<Label>) {
    forall i :: 0 <= i < |ls| ==> 0 < |ls[i]| <= MAX_LABEL
  }

  lemma {:induction false} DotIs(h: seq<byte>, k: nat)
    requires k <= |h| && (forall j :: 0 <= j < k ==> h[j] != DOT) && (k < |h| ==> h[k] == DOT)
    ensures DotFrom(h, 0) == k
  {
    hide DotFrom;
    assert DotFrom(h, 0) >= k;
  }

  lemma {:induction false} SplitAt(h: seq<byte>, k: nat)
    requires k <= |h| && (forall j :: 0 <= j < k ==> h[j] != DOT) && (k < |h| ==> h[k] == DOT)
    ensures Split(h) == if k == |h| then [h] else [h[..k]] + Split(h[k + 1..])
  {
    DotIs(h, k);
    hide DotFrom;
  }

  lemma {:induction false} HostLabelsAreWire(ls: seq<Label>)
    requires AllHost(ls)
    ensures WireLabels(ls)
  {
    if ls != [] {
      HostLabelsAreWire(ls[1..]);
      assert forall i :: 0 < i < |ls| ==> ls[i] == ls[1..][i - 1];
    }
  }

  /** The encoding is two octets longer than the name. */
  lemma {:induction false} WireLength(h: seq<byte>)
    requires AllHost(Split(h))
    ensures WireLabels(Split(h)) && |Wire(Split(h))| == |h| + 2
    decreases |h|
  {
    HostLabelsAreWire(Split(h));
    var k := DotFrom(h, 0);
    if k == |h| {
      assert Split(h)[1..] == [];
    } else {
      assert Split(h)[0] == h[..k] && Split(h)[1..] == Split(h[k + 1..]);
      WireLength(h[k + 1..]);
    }
  }

  // ---- _dns_is_valid_hostname ------------------------------------------------------------------

  /** Section 2.3.1 of RFC 1035 as the client understands it. */
  predicate Hostname(h: seq<byte>) {
    0 < |h| <= MAX_NAME && AllHost(Split(h))
  }

  lemma FirstLabel(h: seq<byte>)
    ensures var k := DotFrom(h, 0);
            AllHost(Split(h)) <==> HostLabel(h[..k]) && (k == |h| || AllHost(Split(h[k + 1..])))
  {
    hide HostLabel;
    var k := DotFrom(h, 0);
    if k == |h| {
      assert Split(h) == [h] && Split(h)[1..] == [] && h[..k] == h;
    } else {
      assert Split(h)[0] == h[..k] && Split(h)[1..] == Split(h[k + 1..]);
    }
  }

  /** Joining the first label, or the only one. */
  lemma JoinedOnce(text: seq<byte>, h: seq<byte>)
    ensures var k := DotFrom(h, 0);
            var first := (if text == [] then [] else text + [DOT]) + h[..k];
            Joined(text, Split(h)) == if k == |h| then first else Joined(first, Split(h[k + 1..]))
  {
    var k := DotFrom(h, 0);
    if k == |h| {
      assert Split(h) == [h] && [h][1..] == [] && h[..k] == h;
    } else {
      assert Split(h)[0] == h[..k] && Split(h)[1..] == Split(h[k + 1..]);
    }
  }

  /** Splitting and joining again gives the name back. */
  lemma {:induction false} JoinSplit(text: seq<byte>, h: seq<byte>)
    requires AllHost(Split(h))
    ensures Joined(text, Split(h)) == (if text == [] then [] else text + [DOT]) + h
    decreases |h|
  {
    hide AllHost, HostLabel, Joined, Split;
    FirstLabel(h);
    JoinedOnce(text, h);
    var k := DotFrom(h, 0);
    var start := if text == [] then [] else text + [DOT];
    if k == |h| {
      assert h[..k] == h;
    } else {
      FirstNotEmpty(h[..k]);
      JoinSplit(start + h[..k], h[k + 1..]);
      assert start + h[..k] + [DOT] + h[k + 1..] == start + h by { assert h == h[..k] + [DOT] + h[k + 1..]; }
    }
  }

  lemma FirstNotEmpty(l: Label)
    requires HostLabel(l)
    ensures l != []
  {
  }

  /** A character that is no letter, digit, hyphen or dot spoils the label it is in. */
  lemma BadCharacter(h: seq<byte>, j: nat)
    requires j < |h| && h[j] != DOT && !LetterDigitHyphen(h[j]) && forall i :: 0 <= i < j ==> h[i] != DOT
    ensures !AllHost(Split(h))
  {
    FirstLabel(h);
    var k := DotFrom(h, 0);
    assert j < k && h[..k][j] == h[j];
  }

  lemma LongLabel(h: seq<byte>, n: nat)
    requires MAX_LABEL < n <= |h| && forall i :: 0 <= i < n ==> h[i] != DOT
    ensures !AllHost(Split(h))
  {
    FirstLabel(h);
  }

  /** A finished label decides about itself; the rest of the name decides the rest. */
  lemma LabelDone(h: seq<byte>, start: nat, i: nat)
    requires start <= i < |h| && h[i] == DOT && forall j :: start <= j < i ==> h[j] != DOT
    ensures AllHost(Split(h[start..])) <==> HostLabel(h[start..i]) && AllHost(Split(h[i + 1..]))
  {
    var t := h[start..];
    FirstLabel(t);
    assert DotFrom(t, 0) == i - start by { assert t[i - start] == DOT; }
    assert t[..i - start] == h[start..i] && t[i - start + 1..] == h[i + 1..];
  }

  lemma LastLabel(h: seq<byte>, start: nat)
    requires start <= |h| && forall j :: start <= j < |h| ==> h[j] != DOT
    ensures AllHost(Split(h[start..])) <==> HostLabel(h[start..])
  {
    var t := h[start..];
    FirstLabel(t);
    assert DotFrom(t, 0) == |t|;
    assert t[..|t|] == t;
  }

  method IsValidHostname(h: seq<byte>) returns (valid: bool)
    ensures valid <==> Hostname(h)
  {
    hide HostLabel, AllHost, Split;
    if |h| == 0 || |h| > MAX_NAME { return false; }
    var labelLen := 0;
    assert h[0..] == h;
    for i := 0 to |h|
      invariant labelLen <= i && labelLen <= MAX_LABEL
      invariant forall j :: i - labelLen <= j < i ==> LetterDigitHyphen(h[j])
      invariant AllHost(Split(h)) <==> AllHost(Split(h[i - labelLen..]))
    {
      ghost var start := i - labelLen;
      var c := h[i];
      if c == DOT {
        LabelDone(h, start, i);
        HostLabelIs(h[start..i]);
        if labelLen == 0 || labelLen > MAX_LABEL { return false; }
        labelLen := 0;
      } else if LetterDigitHyphen(c) {
        labelLen := labelLen + 1;
        if labelLen > MAX_LABEL {
          LongLabel(h[start..], labelLen);
          return false;
        }
      } else {
        BadCharacter(h[start..], i - start);
        return false;
      }
    }
    LastLabel(h, |h| - labelLen);
    HostLabelIs(h[|h| - labelLen..]);
    valid := labelLen > 0 && labelLen <= MAX_LABEL;
  }

  lemma HostLabelIs(l: Label)
    requires forall i :: 0 <= i < |l| ==> LetterDigitHyphen(l[i])
    ensures HostLabel(l) <==> 0 < |l| <= MAX_LABEL
  {
  }

  // ---- _dns_encode_name ------------------------------------------------------------------------

  lemma WireCons(l: Label, ls: seq<Label>)
    requires |l| < 256 && forall i :: 0 <= i < |ls| ==> |ls[i]| < 256
    ensures forall i :: 0 <= i < |[l] + ls| ==> |([l] + ls)[i]| < 256
    ensures Wire([l] + ls) == [|l| as byte] + l + Wire(ls) && Wire([]) == [0]
  {
    assert ([l] + ls)[1..] == ls;
  }

  /** The label that ends at i, and what follows it. */
  lemma HostSuffix(h: seq<byte>, start: nat, i: nat)
    requires start <= i <= |h| && (i < |h| ==> h[i] == DOT) && (forall j :: start <= j < i ==> h[j] != DOT)
    requires AllHost(Split(h[start..]))
    ensures 0 < i - start <= MAX_LABEL && WireLabels(Split(h[start..]))
    ensures i < |h| ==> AllHost(Split(h[i + 1..])) && WireLabels(Split(h[i + 1..]))
    ensures Wire(Split(h[start..]))
            == [(i - start) as byte] + h[start..i] + if i == |h| then [0] else Wire(Split(h[i + 1..]))
  {
    hide AllHost, HostLabel, Split, Wire;
    var t, l := h[start..], h[start..i];
    HostLabelsAreWire(Split(t));
    SplitAt(t, i - start);
    assert t[..i - start] == l;
    if i < |h| {
      LabelDone(h, start, i);
      HostLabelsAreWire(Split(h[i + 1..]));
      assert t[i - start + 1..] == h[i + 1..];
      HostLabelSize(l);
      WireCons(l, Split(h[i + 1..]));
    } else {
      LastLabel(h, start);
      assert t == l && [l] + [] == [l];
      HostLabelSize(l);
      WireCons(l, []);
    }
  }

  lemma HostLabelSize(l: Label)
    requires HostLabel(l)
    ensures 0 < |l| <= MAX_LABEL
  {
  }

  /** An accepted name is written as the wire form of its labels; any other is refused and
      nothing is written. After validation no label is empty. */
  method EncodeName(h: seq<byte>, buffer: array<byte>, at: nat) returns (r: Result<nat>)
    requires Hostname(h) ==> at + |h| + 2 <= buffer.Length
    modifies buffer
    ensures !Hostname(h) ==> r == Err(INVALID_PARAM) && buffer[..] == old(buffer[..])
    ensures Hostname(h) ==>
              && r == Ok(|h| + 2) && WireLabels(Split(h))
              && WrittenFrom(buffer[..], old(buffer[..]), at, Wire(Split(h)))
  {
    hide AllHost, HostLabel, Split, Wire, WrittenFrom;
    var valid := IsValidHostname(h);
    if !valid { return Err(INVALID_PARAM); }
    ghost var before := buffer[..];
    ghost var done: seq<byte> := [];
    UntouchedYet(before, at);
    WireLength(h);
    assert h[0..] == h;
    var pos, labelStart := at, 0;
    for i := 0 to |h| + 1
      invariant labelStart <= i && forall j :: labelStart <= j < i && j < |h| ==> h[j] != DOT
      invariant pos == at + |done| && WrittenFrom(buffer[..], before, at, done)
      invariant labelStart <= |h| ==>
                  AllHost(Split(h[labelStart..])) && WireLabels(Split(h[labelStart..]))
                  && done + Wire(Split(h[labelStart..])) == Wire(Split(h))
      invariant labelStart > |h| ==> i == |h| + 1 && done + [0] == Wire(Split(h))
      invariant i == |h| + 1 ==> labelStart > |h|
    {
      if i == |h| || h[i] == DOT {
        HostSuffix(h, labelStart, i);
        var labelLen := i - labelStart;
        ghost var rest: seq<byte> := if i == |h| then [0] else Wire(Split(h[i + 1..]));
        Regroup(done, [labelLen as byte], h[labelStart..i], rest);
        Append(buffer, pos, [labelLen as byte], before, at, done);
        Append(buffer, pos + 1, h[labelStart..i], before, at, done + [labelLen as byte]);
        pos := pos + 1 + labelLen;
        done := done + [labelLen as byte] + h[labelStart..i];
        labelStart := i + 1;
      }
    }
    Append(buffer, pos, [0], before, at, done);
    r := Ok(pos + 1 - at);
  }

  lemma Regroup(a: seq<byte>, b: seq<byte>, c: seq<byte>, d: seq<byte>)
    ensures a + (b + c + d) == a + b + c + d
  {
  }

  // ---- _dns_decode_name ------------------------------------------------------------------------

  /** The characters of a name and the offset after it. escapes: the decoder has read the
      byte behind the end of the buffer, so that what it does from there on is undefined. */
  datatype Decoded = Decoded(text: seq<byte>, after: nat, escapes: bool)

  /** The name decoded from pos on, at most room characters. The packet is the first len bytes
      of the buffer. */
  function Decode(buf: seq<byte>, len: nat, pos: nat, room: nat, name: seq<byte>, jumps: nat, jumped: bool, off: nat)
      : (r: Decoded)
    requires len <= |buf| && jumps <= MAX_JUMPS && |name| <= room
    ensures |r.text| <= room && name <= r.text
    decreases MAX_JUMPS - jumps, if pos < len then len - pos else 0
  {
    if pos >= len || jumps >= MAX_JUMPS then Decoded(name, off, false)
    else
      var n := buf[pos] as int;
      if n == 0 then Decoded(name, if jumped then off else pos + 1, false)
      else if n >= 192 then
        var off1 := if jumped then off else pos + 2;
        if pos + 1 >= |buf| then Decoded(name, off1, true)
        else Decode(buf, len, n % 64 * 256 + buf[pos + 1] as int, room, name, jumps + 1, true, off1)
      else
        var name1 := if 0 < |name| < room then name + [DOT] else name;
        var k := CopyCount(n, len - (pos + 1), room - |name1|);
        Decode(buf, len, pos + 1 + k, room, name1 + buf[pos + 1..pos + 1 + k], jumps, jumped, off)
  }

  /** How many label octets are copied: all, unless the packet or the name buffer ends. */
  function CopyCount(n: nat, left: nat, room: nat): nat {
    if n <= left && n <= room then n else if left <= room then left else room
  }

  lemma CopyFits(n: nat, left: nat, room: nat)
    ensures CopyCount(n, left, room) <= left && CopyCount(n, left, room) <= room
  {
  }

  lemma DecodeOver(buf: seq<byte>, len: nat, pos: nat, room: nat, name: seq<byte>, jumps: nat, jumped: bool, off: nat)
    requires len <= |buf| && jumps <= MAX_JUMPS && |name| <= room
    ensures pos >= len || jumps >= MAX_JUMPS
            ==> Decode(buf, len, pos, room, name, jumps, jumped, off) == Decoded(name, off, false)
    ensures pos < len && jumps < MAX_JUMPS && buf[pos] == 0 ==>
              Decode(buf, len, pos, room, name, jumps, jumped, off)
                  == Decoded(name, if jumped then off else pos + 1, false)
    ensures pos < len && jumps < MAX_JUMPS && buf[pos] as int >= 192 && pos + 1 == |buf| ==>
              Decode(buf, len, pos, room, name, jumps, jumped, off)
                  == Decoded(name, if jumped then off else pos + 2, true)
  {
  }

  lemma DecodeJumps(buf: seq<byte>, len: nat, pos: nat, room: nat, name: seq<byte>, jumps: nat, jumped: bool, off: nat)
    requires len <= |buf| && jumps < MAX_JUMPS && |name| <= room && pos < len && buf[pos] as int >= 192
             && pos + 1 < |buf|
    ensures Decode(buf, len, pos, room, name, jumps, jumped, off)
            == Decode(buf, len, buf[pos] as int % 64 * 256 + buf[pos + 1] as int, room, name, jumps + 1, true,
                      if jumped then off else pos + 2)
  {
  }

  lemma DecodeCopies(buf: seq<byte>, len: nat, pos: nat, room: nat, name: seq<byte>, jumps: nat, jumped: bool, off: nat)
    requires len <= |buf| && jumps < MAX_JUMPS && |name| <= room && pos < len && 0 < buf[pos] as int < 192
    ensures var name1 := if 0 < |name| < room then name + [DOT] else name;
            var k := CopyCount(buf[pos] as int, len - (pos + 1), room - |name1|);
            Decode(buf, len, pos, room, name, jumps, jumped, off)
            == Decode(buf, len, pos + 1 + k, room, name1 + buf[pos + 1..pos + 1 + k], jumps, jumped, off)
  {
  }

  /** _dns_decode_name: whatever the bytes, cyclic pointers included, it ends, writes at most
      nameLen - 1 characters and a zero, and leaves the rest of the name buffer alone. Where
      the source would read behind the buffer the method stops and says so. */
  method DecodeName(buf: seq<byte>, len: nat, offset: nat, name: array<byte>, nameLen: nat)
      returns (after: nat, escapes: bool)
    requires len <= MAX_PACKET && len <= |buf| && 0 < nameLen <= name.Length
    modifies name
    ensures var r := Decode(buf, len, offset, nameLen - 1, [], 0, false, offset);
            && after == r.after && escapes == r.escapes
            && |r.text| < nameLen && name[..|r.text|] == r.text && name[|r.text|] == 0
            && name[|r.text| + 1..] == old(name[|r.text| + 1..])
  {
    hide Decode;
    var namePos;
    namePos, after, escapes := FollowName(buf, len, offset, name, nameLen - 1);
    name[namePos] := 0;
  }

  /** The decoding loop. */
  method FollowName(buf: seq<byte>, len: nat, offset: nat, name: array<byte>, room: nat)
      returns (namePos: nat, after: nat, escapes: bool)
    requires len <= MAX_PACKET && len <= |buf| && room < name.Length
    modifies name
    ensures namePos <= room
    ensures Decode(buf, len, offset, room, [], 0, false, offset) == Decoded(name[..namePos], after, escapes)
    ensures forall k :: namePos <= k < name.Length ==> name[k] == old(name[k])
  {
    hide Decode, CopyCount;
    var pos: nat, jumped, jumps := offset, false, 0;
    namePos, after, escapes := 0, offset, false;
    ghost var goal := Decode(buf, len, offset, room, [], 0, false, offset);
    while pos < len && jumps < MAX_JUMPS
      invariant namePos <= room && jumps <= MAX_JUMPS
      invariant Decode(buf, len, pos, room, name[..namePos], jumps, jumped, after) == goal
      invariant forall k :: namePos <= k < name.Length ==> name[k] == old(name[k])
      decreases MAX_JUMPS - jumps, len - pos
    {
      var n := buf[pos] as int;
      DecodeOver(buf, len, pos, room, name[..namePos], jumps, jumped, after);
      if n == 0 {
        if !jumped { after := pos + 1; }
        return;
      } else if n >= 192 {
        if pos + 1 == |buf| {
          if !jumped { after := pos + 2; }
          escapes := true;
          return;
        }
        DecodeJumps(buf, len, pos, room, name[..namePos], jumps, jumped, after);
        if !jumped { after := pos + 2; }
        pos := n % 64 * 256 + buf[pos + 1] as int;
        jumped := true;
        jumps := jumps + 1;
      } else {
        DecodeCopies(buf, len, pos, room, name[..namePos], jumps, jumped, after);
        namePos := PutDot(name, namePos, room);
        pos, namePos := CopyLabel(buf, len, pos + 1, n, name, namePos, room);
      }
    }
    DecodeOver(buf, len, pos, room, name[..namePos], jumps, jumped, after);
  }

  method PutDot(name: array<byte>, namePos: nat, room: nat) returns (end: nat)
    requires namePos <= room < name.Length
    modifies name
    ensures end <= room
    ensures name[..end] == if 0 < namePos < room then old(name[..namePos]) + [DOT] else old(name[..namePos])
    ensures forall k :: end <= k < name.Length ==> name[k] == old(name[k])
  {
    end := namePos;
    if 0 < end < room {
      name[end] := DOT;
      end := end + 1;
    }
  }

  /** The copying loop for one label. */
  method CopyLabel(buf: seq<byte>, len: nat, start: nat, n: nat, name: array<byte>, namePos: nat, room: nat)
      returns (pos: nat, end: nat)
    requires start <= len <= |buf| && namePos <= room < name.Length
    modifies name
    ensures var k := CopyCount(n, len - start, room - namePos);
            && pos == start + k && end == namePos + k && end <= room
            && name[..end] == old(name[..namePos]) + buf[start..pos]
    ensures forall k :: end <= k < name.Length ==> name[k] == old(name[k])
  {
    pos, end := start, namePos;
    var i := 0;
    while i < n && pos < len && end < room
      invariant i <= n && pos == start + i <= len && end == namePos + i <= room
      invariant name[..end] == old(name[..namePos]) + buf[start..pos]
      invariant forall k :: end <= k < name.Length ==> name[k] == old(name[k])
    {
      name[end] := buf[pos];
      i, pos, end := i + 1, pos + 1, end + 1;
    }
  }

  lemma {:induction false} JoinedGrows(text: seq<byte>, ls: seq<Label>)
    ensures |Joined(text, ls)| >= |text|
    ensures ls != [] ==> |Joined(text, ls)| >= |text| + |ls[0]| + if text == [] then 0 else 1
    decreases |ls|
  {
    if ls != [] { JoinedGrows((if text == [] then [] else text + [DOT]) + ls[0], ls[1..]); }
  }

  /** One label that is complete and fits. */
  lemma DecodeLabel(buf: seq<byte>, len: nat, pos: nat, room: nat, name: seq<byte>, jumps: nat, jumped: bool, off: nat)
    requires pos < len <= |buf| && jumps < MAX_JUMPS && |name| <= room
    requires var n := buf[pos] as int;
             0 < n < 192 && pos + 1 + n <= len && |name| + (if name == [] then 0 else 1) + n <= room
    ensures var n := buf[pos] as int;
            var name1 := (if name == [] then [] else name + [DOT]) + buf[pos + 1..pos + 1 + n];
            && |name1| <= room
            && Decode(buf, len, pos, room, name, jumps, jumped, off)
               == Decode(buf, len, pos + 1 + n, room, name1, jumps, jumped, off)
  {
    hide Decode;
    DecodeCopies(buf, len, pos, room, name, jumps, jumped, off);
    var n := buf[pos] as int;
    var name1 := if 0 < |name| < room then name + [DOT] else name;
    assert CopyCount(n, len - (pos + 1), room - |name1|) == n;
  }

  /** The labels ls stand at pos, reached over the given number of pointers (section 4.1.4 of
      RFC 1035). */
  predicate NameAt(buf: seq<byte>, len: nat, pos: nat, ls: seq<Label>, hops: nat)
    requires len <= |buf|
    decreases hops, |ls|
  {
    && pos < len
    && var n := buf[pos] as int;
       if n == 0 then ls == [] && hops == 0
       else if n >= 192 then
         hops > 0 && pos + 1 < len && NameAt(buf, len, n % 64 * 256 + buf[pos + 1] as int, ls, hops - 1)
       else
         && n <= MAX_LABEL && pos + 1 + n <= len
         && ls != [] && ls[0] == buf[pos + 1..pos + 1 + n] && NameAt(buf, len, pos + 1 + n, ls[1..], hops)
  }

  /** Any name, compressed or not, that is reached over fewer than ten pointers and fits is
      decoded as its labels joined by dots; the offset is the one that skipping finds. */
  lemma {:induction false} DecodeResolves(buf: seq<byte>, len: nat, pos: nat, ls: seq<Label>, hops: nat, room: nat,
                                          name: seq<byte>, jumps: nat, jumped: bool, off: nat)
    requires len <= |buf| && NameAt(buf, len, pos, ls, hops) && jumps + hops < MAX_JUMPS
    requires |name| <= room && |Joined(name, ls)| <= room
    ensures var r := Decode(buf, len, pos, room, name, jumps, jumped, off);
            && r.text == Joined(name, ls) && !r.escapes
            && (jumped ==> r.after == off) && (!jumped ==> SkipFrom(buf, len, pos) == Ok(r.after))
    decreases hops, |ls|
  {
    hide Decode;
    DecodeOver(buf, len, pos, room, name, jumps, jumped, off);
    var n := buf[pos] as int;
    if n >= 192 {
      DecodeJumps(buf, len, pos, room, name, jumps, jumped, off);
      DecodeResolves(buf, len, n % 64 * 256 + buf[pos + 1] as int, ls, hops - 1, room, name, jumps + 1, true,
                     if jumped then off else pos + 2);
    } else if n > 0 {
      JoinedGrows(name, ls);
      DecodeLabel(buf, len, pos, room, name, jumps, jumped, off);
      DecodeResolves(buf, len, pos + 1 + n, ls[1..], hops, room, (if name == [] then [] else name + [DOT]) + ls[0],
                     jumps, jumped, off);
    }
  }

  lemma {:induction false} JoinedStarts(text: seq<byte>, ls: seq<Label>)
    ensures text <= Joined(text, ls)
    decreases |ls|
  {
    if ls != [] { JoinedStarts((if text == [] then [] else text + [DOT]) + ls[0], ls[1..]); }
  }

  /** A label that does not fit is cut off where the name buffer ends. */
  lemma DecodeCuts(buf: seq<byte>, len: nat, pos: nat, room: nat, name: seq<byte>, jumps: nat, jumped: bool, off: nat)
    requires pos < len <= |buf| && jumps < MAX_JUMPS && |name| <= room
    requires var n := buf[pos] as int;
             0 < n < 192 && pos + 1 + n <= len && |name| + (if name == [] then 0 else 1) + n > room
    ensures var n := buf[pos] as int;
            var whole := (if name == [] then [] else name + [DOT]) + buf[pos + 1..pos + 1 + n];
            Decode(buf, len, pos, room, name, jumps, jumped, off).text == whole[..room]
  {
    hide Decode;
    DecodeCopies(buf, len, pos, room, name, jumps, jumped, off);
    var n := buf[pos] as int;
    var name1 := if 0 < |name| < room then name + [DOT] else name;
    var k := CopyCount(n, len - (pos + 1), room - |name1|);
    var whole := (if name == [] then [] else name + [DOT]) + buf[pos + 1..pos + 1 + n];
    var cut := name1 + buf[pos + 1..pos + 1 + k];
    assert |cut| == room && cut == whole[..room];
    FullName(buf, len, pos + 1 + k, room, cut, jumps, jumped, off);
  }

  /** Nothing is added to a full name. */
  lemma FullName(buf: seq<byte>, len: nat, pos: nat, room: nat, name: seq<byte>, jumps: nat, jumped: bool, off: nat)
    requires len <= |buf| && jumps <= MAX_JUMPS && |name| == room
    ensures Decode(buf, len, pos, room, name, jumps, jumped, off).text == name
  {
    hide Decode;
    var t := Decode(buf, len, pos, room, name, jumps, jumped, off).text;
    assert name <= t && |t| <= room;
    assert t == t[..room];
  }

  /** A name that does not fit the name buffer is decoded up to the last character that fits. */
  lemma {:induction false} DecodeTruncates(buf: seq<byte>, len: nat, pos: nat, ls: seq<Label>, hops: nat, room: nat,
                                           name: seq<byte>, jumps: nat, jumped: bool, off: nat)
    requires len <= |buf| && NameAt(buf, len, pos, ls, hops) && jumps + hops < MAX_JUMPS
    requires |name| <= room < |Joined(name, ls)|
    ensures Decode(buf, len, pos, room, name, jumps, jumped, off).text == Joined(name, ls)[..room]
    decreases hops, |ls|
  {
    hide Decode;
    var n := buf[pos] as int;
    if n >= 192 {
      DecodeJumps(buf, len, pos, room, name, jumps, jumped, off);
      DecodeTruncates(buf, len, n % 64 * 256 + buf[pos + 1] as int, ls, hops - 1, room, name, jumps + 1, true,
                      if jumped then off else pos + 2);
    } else if n > 0 {
      var whole := (if name == [] then [] else name + [DOT]) + ls[0];
      if |whole| <= room {
        DecodeLabel(buf, len, pos, room, name, jumps, jumped, off);
        DecodeTruncates(buf, len, pos + 1 + n, ls[1..], hops, room, whole, jumps, jumped, off);
      } else {
        DecodeCuts(buf, len, pos, room, name, jumps, jumped, off);
        JoinedStarts(whole, ls[1..]);
      }
    }
  }

  lemma WireHead(ls: seq<Label>)
    requires WireLabels(ls)
    ensures ls == [] ==> Wire(ls) == [0]
    ensures ls != [] ==>
              var w, k := Wire(ls), 1 + |ls[0]|;
              |w| == k + |Wire(ls[1..])| && w[0] as int == |ls[0]| && w[1..k] == ls[0] && w[k..|w|] == Wire(ls[1..])
  {
  }

  lemma WireAt(buf: seq<byte>, at: nat, ls: seq<Label>)
    requires WireLabels(ls) && at + |Wire(ls)| <= |buf| && buf[at..at + |Wire(ls)|] == Wire(ls)
    ensures ls == [] ==> buf[at] == 0 && |Wire(ls)| == 1
    ensures ls != [] ==>
              && buf[at] as int == |ls[0]| && |Wire(ls)| == 1 + |ls[0]| + |Wire(ls[1..])|
              && buf[at + 1..at + 1 + |ls[0]|] == ls[0]
              && buf[at + 1 + |ls[0]|..at + |Wire(ls)|] == Wire(ls[1..])
  {
    hide Wire;
    var w := buf[at..at + |Wire(ls)|];
    WireHead(ls);
    assert buf[at] == w[0];
    if ls != [] {
      var k := 1 + |ls[0]|;
      SlicePart(buf, at, |w|, 1, k);
      SlicePart(buf, at, |w|, k, |w|);
    }
  }

  lemma {:induction false} WireIsName(buf: seq<byte>, len: nat, at: nat, ls: seq<Label>)
    requires len <= |buf| && WireLabels(ls) && at + |Wire(ls)| <= len && buf[at..at + |Wire(ls)|] == Wire(ls)
    ensures NameAt(buf, len, at, ls, 0) && SkipFrom(buf, len, at) == Ok(at + |Wire(ls)|)
    decreases |ls|
  {
    hide Wire;
    WireAt(buf, at, ls);
    if ls != [] { WireIsName(buf, len, at + 1 + |ls[0]|, ls[1..]); }
  }

  /** An uncompressed name that fits is read back with the offset just past it. */
  lemma {:induction false} DecodeWire(buf: seq<byte>, len: nat, at: nat, ls: seq<Label>, room: nat, name: seq<byte>,
                                      off: nat)
    requires len <= |buf| && WireLabels(ls) && at + |Wire(ls)| <= len
    requires buf[at..at + |Wire(ls)|] == Wire(ls) && |name| <= room && |Joined(name, ls)| <= room
    ensures Decode(buf, len, at, room, name, 0, false, off) == Decoded(Joined(name, ls), at + |Wire(ls)|, false)
  {
    hide Decode, Wire, NameAt, SkipFrom;
    WireIsName(buf, len, at, ls);
    DecodeResolves(buf, len, at, ls, 0, room, name, 0, false, off);
  }

  /** Every accepted hostname survives encoding and decoding, wherever it stands in a packet. */
  lemma {:induction false} NameRoundTrip(h: seq<byte>, buf: seq<byte>, len: nat, at: nat)
    requires Hostname(h) && len <= |buf| && at + |h| + 2 <= len
    requires WireLabels(Split(h)) && buf[at..at + |h| + 2] == Wire(Split(h))
    ensures Decode(buf, len, at, MAX_NAME, [], 0, false, at) == Decoded(h, at + |h| + 2, false)
    ensures |h| + 2 <= 255
  {
    hide Split, Wire, Decode, Joined;
    JoinSplit([], h);
    assert [] + h == h;
    WireLength(h);
    DecodeWire(buf, len, at, Split(h), MAX_NAME, [], at);
  }

  // ---- _dns_skip_name ------------------------------------------------------------------------------

  function SkipFrom(buf: seq<byte>, len: nat, pos: nat): Result<nat>
    requires len <= |buf|
    decreases if pos < len then len - pos else 0
  {
    if pos >= len then Err(FORMAT)
    else
      var n := buf[pos] as int;
      if n >= 192 then Ok(pos + 2)
      else if n == 0 then Ok(pos + 1)
      else SkipFrom(buf, len, pos + 1 + n)
  }

  function Skip(buf: seq<byte>, len: nat, pos: nat): Result<nat>
    requires len <= |buf|
  {
    if pos >= len then Err(INVALID_PARAM) else SkipFrom(buf, len, pos)
  }

  method SkipName(buf: seq<byte>, len: nat, start: nat) returns (r: Result<nat>)
    requires len <= |buf| && len <= MAX_PACKET
    ensures r == Skip(buf, len, start)
  {
    if start >= len { return Err(INVALID_PARAM); }
    var pos := start;
    while pos < len
      invariant SkipFrom(buf, len, pos) == SkipFrom(buf, len, start)
    {
      var n := buf[pos] as int;
      if n >= 192 { return Ok(pos + 2); }
      if n == 0 { return Ok(pos + 1); }
      pos := pos + 1 + n;
      if pos >= len { return Err(FORMAT); }
    }
    r := Err(FORMAT);
  }

  /** Once a pointer has been followed the offset is fixed. */
  lemma {:induction false} JumpedOffset(buf: seq<byte>, len: nat, pos: nat, room: nat, name: seq<byte>, jumps: nat,
                                        off: nat)
    requires len <= |buf| && jumps <= MAX_JUMPS && |name| <= room
    ensures Decode(buf, len, pos, room, name, jumps, true, off).after == off
    decreases MAX_JUMPS - jumps, if pos < len then len - pos else 0
  {
    hide Decode, CopyCount;
    DecodeOver(buf, len, pos, room, name, jumps, true, off);
    if pos < len && jumps < MAX_JUMPS {
      var n := buf[pos] as int;
      if n >= 192 && pos + 1 < |buf| {
        DecodeJumps(buf, len, pos, room, name, jumps, true, off);
        JumpedOffset(buf, len, n % 64 * 256 + buf[pos + 1] as int, room, name, jumps + 1, off);
      } else if 0 < n < 192 {
        var name1 := if 0 < |name| < room then name + [DOT] else name;
        var k := CopyCount(n, len - (pos + 1), room - |name1|);
        CopyFits(n, len - (pos + 1), room - |name1|);
        DecodeCopies(buf, len, pos, room, name, jumps, true, off);
        JumpedOffset(buf, len, pos + 1 + k, room, name1 + buf[pos + 1..pos + 1 + k], jumps, off);
      }
    }
  }

  /** Characters that the labels up to the first pointer or the end need, after m others. */
  function PlainSize(buf: seq<byte>, len: nat, pos: nat, m: nat): nat
    requires len <= |buf|
    decreases if pos < len then len - pos else 0
  {
    if pos >= len || buf[pos] as int >= 192 || buf[pos] == 0 then m
    else PlainSize(buf, len, pos + 1 + buf[pos] as int, (if m > 0 then m + 1 else m) + buf[pos] as int)
  }

  lemma {:induction false} PlainGrows(buf: seq<byte>, len: nat, pos: nat, m: nat)
    requires len <= |buf|
    ensures PlainSize(buf, len, pos, m) >= m
    decreases if pos < len then len - pos else 0
  {
    if !(pos >= len || buf[pos] as int >= 192 || buf[pos] == 0) {
      PlainGrows(buf, len, pos + 1 + buf[pos] as int, (if m > 0 then m + 1 else m) + buf[pos] as int);
    }
  }

  /** Decoding leaves the same offset as skipping whenever the skip succeeds and the labels
      before the first pointer fit into the name buffer. */
  lemma {:induction false} DecodeAgreesWithSkip(buf: seq<byte>, len: nat, pos: nat, room: nat, name: seq<byte>,
                                                off: nat)
    requires len <= |buf| && |name| <= room && SkipFrom(buf, len, pos).Ok?
    requires PlainSize(buf, len, pos, |name|) <= room
    ensures Decode(buf, len, pos, room, name, 0, false, off).after == SkipFrom(buf, len, pos).value
    decreases if pos < len then len - pos else 0
  {
    hide Decode, SkipFrom, PlainSize;
    SkipStops(buf, len, pos);
    var n := buf[pos] as int;
    if n == 0 || n >= 192 {
      DecodeStops(buf, len, pos, room, name, off);
    } else {
      var m := (if |name| > 0 then |name| + 1 else |name|) + n;
      LabelSkipped(buf, len, pos, |name|);
      PlainGrows(buf, len, pos + 1 + n, m);
      DecodeLabel(buf, len, pos, room, name, 0, false, off);
      DecodeAgreesWithSkip(buf, len, pos + 1 + n, room,
                           (if name == [] then [] else name + [DOT]) + buf[pos + 1..pos + 1 + n], off);
    }
  }

  lemma SkipStops(buf: seq<byte>, len: nat, pos: nat)
    requires len <= |buf|
    ensures SkipFrom(buf, len, pos).Ok? ==> pos < len
    ensures pos < len && buf[pos] == 0 ==> SkipFrom(buf, len, pos) == Ok(pos + 1)
    ensures pos < len && buf[pos] as int >= 192 ==> SkipFrom(buf, len, pos) == Ok(pos + 2)
  {
  }

  lemma LabelSkipped(buf: seq<byte>, len: nat, pos: nat, m: nat)
    requires pos < len <= |buf| && 0 < buf[pos] as int < 192 && SkipFrom(buf, len, pos).Ok?
    ensures var n := buf[pos] as int;
            && pos + 1 + n < len && SkipFrom(buf, len, pos) == SkipFrom(buf, len, pos + 1 + n)
            && PlainSize(buf, len, pos, m) == PlainSize(buf, len, pos + 1 + n, (if m > 0 then m + 1 else m) + n)
  {
  }

  lemma DecodeStops(buf: seq<byte>, len: nat, pos: nat, room: nat, name: seq<byte>, off: nat)
    requires len <= |buf| && pos < len && |name| <= room && (buf[pos] == 0 || buf[pos] as int >= 192)
    ensures Decode(buf, len, pos, room, name, 0, false, off).after == if buf[pos] == 0 then pos + 1 else pos + 2
  {
    var n := buf[pos] as int;
    if n >= 192 && pos + 1 < |buf| {
      JumpedOffset(buf, len, n % 64 * 256 + buf[pos + 1] as int, room, name, 1, pos + 2);
    }
  }

  // ---- Reading behind the buffer -----------------------------------------------------------------

  /** Where the decoding loop stands: next octet, characters written, pointers followed. */
  datatype Cursor = Cursor(pos: nat, used: nat, jumps: nat)

  /** One round of the loop, without the characters. */
  predicate Moves(buf: seq<byte>, len: nat, room: nat, c: Cursor, d: Cursor)
    requires len <= |buf|
  {
    && c.pos < len && c.jumps < MAX_JUMPS && c.used <= room
    && var n := buf[c.pos] as int;
       && n != 0
       && (n >= 192 ==> c.pos + 1 < |buf| && d == Cursor(n % 64 * 256 + buf[c.pos + 1] as int, c.used, c.jumps + 1))
       && (n < 192 ==>
             var used1 := if 0 < c.used < room then c.used + 1 else c.used;
             var k := CopyCount(n, len - (c.pos + 1), room - used1);
             d == Cursor(c.pos + 1 + k, used1 + k, c.jumps))
  }

  ghost predicate Walk(buf: seq<byte>, len: nat, room: nat, path: seq<Cursor>)
    requires len <= |buf|
  {
    path != [] && forall i :: 0 < i < |path| ==> Moves(buf, len, room, path[i - 1], path[i])
  }

  /** The loop stands on the last octet of a buffer that the packet fills, and that octet opens
      a pointer. */
  predicate AtEdge(buf: seq<byte>, len: nat, c: Cursor)
    requires len <= |buf|
  {
    c.jumps < MAX_JUMPS && c.pos + 1 == len == |buf| && buf[c.pos] as int >= 192
  }

  ghost predicate WalksToEdge(buf: seq<byte>, len: nat, room: nat, c: Cursor, path: seq<Cursor>)
    requires len <= |buf|
  {
    Walk(buf, len, room, path) && path[0] == c && AtEdge(buf, len, path[|path| - 1])
  }

  /** One round of decoding in terms of the walk. */
  lemma DecodeMoves(buf: seq<byte>, len: nat, room: nat, name: seq<byte>, c: Cursor, d: Cursor, jumped: bool, off: nat)
      returns (name1: seq<byte>, jumped1: bool, off1: nat)
    requires len <= |buf| && |name| == c.used && Moves(buf, len, room, c, d)
    ensures |name1| == d.used <= room && d.jumps <= MAX_JUMPS
    ensures Decode(buf, len, c.pos, room, name, c.jumps, jumped, off)
            == Decode(buf, len, d.pos, room, name1, d.jumps, jumped1, off1)
  {
    hide Decode;
    var n := buf[c.pos] as int;
    if n >= 192 {
      DecodeJumps(buf, len, c.pos, room, name, c.jumps, jumped, off);
      name1, jumped1, off1 := name, true, if jumped then off else c.pos + 2;
    } else {
      DecodeCopies(buf, len, c.pos, room, name, c.jumps, jumped, off);
      var name0 := if 0 < |name| < room then name + [DOT] else name;
      var k := CopyCount(n, len - (c.pos + 1), room - |name0|);
      name1, jumped1, off1 := name0 + buf[c.pos + 1..c.pos + 1 + k], jumped, off;
    }
  }

  lemma {:induction false} EdgeEscapes(buf: seq<byte>, len: nat, room: nat, name: seq<byte>, jumped: bool, off: nat,
                                       path: seq<Cursor>)
    requires len <= |buf| && path != [] && |name| == path[0].used <= room && path[0].jumps <= MAX_JUMPS
    requires Walk(buf, len, room, path) && AtEdge(buf, len, path[|path| - 1])
    ensures Decode(buf, len, path[0].pos, room, name, path[0].jumps, jumped, off).escapes
    decreases |path|
  {
    hide Decode, Moves;
    if |path| == 1 {
      DecodeOver(buf, len, path[0].pos, room, name, path[0].jumps, jumped, off);
    } else {
      assert Moves(buf, len, room, path[1 - 1], path[1]);
      var name1, jumped1, off1 := DecodeMoves(buf, len, room, name, path[0], path[1], jumped, off);
      assert forall i :: 0 < i < |path[1..]| ==> path[1..][i - 1] == path[i] && path[1..][i] == path[i + 1];
      EdgeEscapes(buf, len, room, name1, jumped1, off1, path[1..]);
    }
  }

  lemma {:induction false} EscapeIsAtEdge(buf: seq<byte>, len: nat, pos: nat, room: nat, name: seq<byte>, jumps: nat,
                                          jumped: bool, off: nat)
      returns (path: seq<Cursor>)
    requires len <= |buf| && jumps <= MAX_JUMPS && |name| <= room
    requires Decode(buf, len, pos, room, name, jumps, jumped, off).escapes
    ensures WalksToEdge(buf, len, room, Cursor(pos, |name|, jumps), path)
    decreases MAX_JUMPS - jumps, if pos < len then len - pos else 0
  {
    hide Decode;
    DecodeOver(buf, len, pos, room, name, jumps, jumped, off);
    var c := Cursor(pos, |name|, jumps);
    var n := buf[pos] as int;
    if n >= 192 && pos + 1 == |buf| {
      path := [c];
    } else {
      var used1 := if 0 < |name| < room then |name| + 1 else |name|;
      var k := CopyCount(n, len - (pos + 1), room - used1);
      var d := if n >= 192 then Cursor(n % 64 * 256 + buf[pos + 1] as int, |name|, jumps + 1)
          else Cursor(pos + 1 + k, used1 + k, jumps);
      assert Moves(buf, len, room, c, d);
      var name1, jumped1, off1 := DecodeMoves(buf, len, room, name, c, d, jumped, off);
      var rest := EscapeIsAtEdge(buf, len, d.pos, room, name1, d.jumps, jumped1, off1);
      path := [c] + rest;
      assert forall i :: 0 <= i < |path| ==> path[i] == if i == 0 then c else rest[i - 1];
    }
  }

  /** The decoder reads behind the buffer if and only if its walk comes to the last octet of a
      packet that fills the buffer and finds a pointer there. */
  lemma EscapesIffAtEdge(buf: seq<byte>, len: nat, offset: nat, room: nat)
    requires len <= |buf|
    ensures Decode(buf, len, offset, room, [], 0, false, offset).escapes
            <==> exists path :: WalksToEdge(buf, len, room, Cursor(offset, 0, 0), path)
  {
    hide Decode, Moves, AtEdge;
    if Decode(buf, len, offset, room, [], 0, false, offset).escapes {
      var path := EscapeIsAtEdge(buf, len, offset, room, [], 0, false, offset);
    }
    if path :| WalksToEdge(buf, len, room, Cursor(offset, 0, 0), path) {
      EdgeEscapes(buf, len, room, [], false, offset, path);
    }
  }

  /** Before any call: a packet has an offset whose decoding reads behind the buffer if and
      only if it fills the buffer and its last octet opens a pointer. */
  lemma EscapesSomewhere(buf: seq<byte>, len: nat, room: nat)
    requires len <= |buf|
    ensures (exists offset: nat :: Decode(buf, len, offset, room, [], 0, false, offset).escapes)
            <==> 0 < len == |buf| && buf[len - 1] as int >= 192
  {
    hide Decode;
    if offset: nat :| Decode(buf, len, offset, room, [], 0, false, offset).escapes {
      var path := EscapeIsAtEdge(buf, len, offset, room, [], 0, false, offset);
    }
    if 0 < len == |buf| && buf[len - 1] as int >= 192 {
      DecodeOver(buf, len, len - 1, room, [], 0, false, len - 1);
    }
  }
}
