/**
 * The TLS server_name parser of crates/arp-server/src/proxy/vhost.rs, against the ClientHello format of
 * sections 4.1.2, 4.2 and 5.1 of RFC 8446 and section 3 of RFC 6066.
 */
module Sni {
  import opened Bytes
  import opened Utf8

  // ----- the parser -----

  /** The two- or three-octet number at s[i..]. */
  function U16At(s: seq<byte>, i: nat): (n: nat)
    requires i + 2 <= |s|
    ensures n < 65536
  {
    256 * (s[i] as int) + s[i + 1]
  }

  function U24At(s: seq<byte>, i: nat): (n: nat)
    requires i + 3 <= |s|
  {
    65536 * (s[i] as int) + U16At(s, i + 1)
  }

  /** First host_name in a name list. */
  function ScanNames(s: seq<byte>): (name: Option<seq<byte>>)
    decreases |s|
  {
    if |s| < 3 then None
    else
      var len := U16At(s, 1);
      if 3 + len > |s| then None
      else if s[0] == 0 then Some(s[3..3 + len])
      else ScanNames(s[3 + len..])
  }

  /** First server_name extension in an extension list. */
  function ScanExtensions(s: seq<byte>): (name: Option<seq<byte>>)
    decreases |s|
  {
    if |s| < 4 then None
    else
      var len := U16At(s, 2);
      if 4 + len > |s| then None
      else if U16At(s, 0) == 0 then if len < 2 then None else ScanNames(s[6..4 + len])
      else ScanExtensions(s[4 + len..])
  }

  /** Skips a vector with a one-octet length; something must follow it. */
  function Skip8(s: seq<byte>, following: nat): (rest: Option<seq<byte>>)
  {
    if s == [] || 1 + s[0] as int + following > |s| then None else Some(s[1 + s[0] as int..])
  }

  function Skip16(s: seq<byte>, following: nat): (rest: Option<seq<byte>>)
  {
    if |s| < 2 || 2 + U16At(s, 0) + following > |s| then None else Some(s[2 + U16At(s, 0)..])
  }

  /** The record from the length of the extension list on. */
  function FromBlock(r: seq<byte>): (s: Option<seq<byte>>)
  {
    if |r| < 5 || r[0] != 0x16 then None
    else if U16At(r, 3) + 5 > |r| then None
    else if 9 > |r| || r[5] != 0x01 then None
    else if 9 + U24At(r, 6) > |r| then None
    else if 43 >= |r| then None
    else
      match Skip8(r[43..], 2)
      case None => None
      case Some(s2) =>
        match Skip16(s2, 1)
        case None => None
        case Some(s3) => Skip8(s3, 2)
  }

  function ScanBlock(s: seq<byte>): (name: Option<seq<byte>>)
  {
    if |s| < 2 || 2 + U16At(s, 0) > |s| then None else ScanExtensions(s[2..2 + U16At(s, 0)])
  }

  function SniOf(r: seq<byte>): (name: Option<seq<byte>>)
  {
    match FromBlock(r)
    case None => None
    case Some(s) => HostString(ScanBlock(s))
  }

  /** A host name must be a string. */
  function HostString(host: Option<seq<byte>>): (name: Option<seq<byte>>)
  {
    if host.Some? && ValidUtf8(host.value) then host else None
  }

  /** Reads the positions as the program does: an index into the record that only moves forward. */
  method ParseTlsSni(record: seq<byte>) returns (name: Option<seq<byte>>)
    ensures name == SniOf(record)
  {
    if |record| < 5 || record[0] != 0x16 { return None; }
    var recLen := U16At(record, 3);
    if recLen + 5 > |record| { return None; }
    if 9 > |record| || record[5] != 0x01 { return None; }
    var hsLen := U24At(record, 6);
    if 9 + hsLen > |record| { return None; }
    if 9 + 2 + 32 >= |record| { return None; }
    var pos := SkipPrelude(record);
    if pos.None? { return None; }
    var host := FindServerName(record, pos.value);
    name := HostString(host);
  }

  /** The position of the extension list's length, past session id, cipher suites and compression methods. */
  method SkipPrelude(record: seq<byte>) returns (at: Option<nat>)
    requires 43 < |record|
    ensures at.Some? ==> at.value + 2 <= |record|
    ensures var s2 := Skip8(record[43..], 2);
            var s3 := if s2.Some? then Skip16(s2.value, 1) else None;
            var s4 := if s3.Some? then Skip8(s3.value, 2) else None;
            if at.None? then s4.None? else s4 == Some(record[at.value..])
  {
    var pos: nat := 43;
    var sessionIdLen: int := record[pos];
    pos := pos + 1 + sessionIdLen;
    if pos + 2 > |record| { return None; }
    assert Skip8(record[43..], 2) == Some(record[pos..]);
    ghost var p2 := pos;
    var cipherLen := U16At(record, pos);
    pos := pos + 2 + cipherLen;
    if pos >= |record| { return None; }
    assert Skip16(record[p2..], 1) == Some(record[pos..]);
    ghost var p3 := pos;
    var compressionLen: int := record[pos];
    pos := pos + 1 + compressionLen;
    if pos + 2 > |record| { return None; }
    assert Skip8(record[p3..], 2) == Some(record[pos..]);
    at := Some(pos);
  }

  method FindServerName(record: seq<byte>, at: nat) returns (name: Option<seq<byte>>)
    requires at + 2 <= |record|
    ensures name == ScanBlock(record[at..])
  {
    var extensionsEnd := at + 2 + U16At(record, at);
    assert U16At(record[at..], 0) == U16At(record, at);
    if extensionsEnd > |record| { return None; }
    assert record[at..][2..2 + U16At(record, at)] == record[at + 2..extensionsEnd];
    name := FindExtension(record, at + 2, extensionsEnd);
  }

  lemma SliceOfSlice(s: seq<byte>, lo: nat, hi: nat, a: nat, b: nat)
    requires lo <= hi <= |s| && a <= b <= hi - lo
    ensures s[lo..hi][a..b] == s[lo + a..lo + b]
  {
    var x, y := s[lo..hi][a..b], s[lo + a..lo + b];
    assert forall i :: 0 <= i < b - a ==> x[i] == s[lo..hi][a + i] == s[lo + (a + i)] == y[i];
  }

  /** One entry of the extension list, by index. */
  lemma ExtensionStep(r: seq<byte>, pos: nat, end: nat)
    requires pos + 4 <= end <= |r|
    ensures ScanExtensions(r[pos..end])
         == var len := U16At(r, pos + 2);
            if pos + 4 + len > end then None
            else if U16At(r, pos) == 0 then if len < 2 then None else ScanNames(r[pos + 6..pos + 4 + len])
            else ScanExtensions(r[pos + 4 + len..end])
  {
    var s, len := r[pos..end], U16At(r, pos + 2);
    assert U16At(r, pos) == U16At(s, 0) && len == U16At(s, 2);
    if 4 + len <= |s| {
      SliceOfSlice(r, pos, end, 4 + len, |s|);
      if len >= 2 { SliceOfSlice(r, pos, end, 6, 4 + len); }
    }
  }

  /** One entry of the name list, by index. */
  lemma NameStep(r: seq<byte>, pos: nat, end: nat)
    requires pos + 3 <= end <= |r|
    ensures ScanNames(r[pos..end])
         == var len := U16At(r, pos + 1);
            if pos + 3 + len > end then None
            else if r[pos] == 0 then Some(r[pos + 3..pos + 3 + len])
            else ScanNames(r[pos + 3 + len..end])
  {
    var s, len := r[pos..end], U16At(r, pos + 1);
    assert r[pos] == s[0] && len == U16At(s, 1);
    if 3 + len <= |s| {
      SliceOfSlice(r, pos, end, 3, 3 + len);
      SliceOfSlice(r, pos, end, 3 + len, |s|);
    }
  }

  method FindExtension(record: seq<byte>, start: nat, extensionsEnd: nat) returns (name: Option<seq<byte>>)
    requires start <= extensionsEnd <= |record|
    ensures name == ScanExtensions(record[start..extensionsEnd])
  {
    var pos := start;
    ghost var list := record[start..extensionsEnd];
    ghost var left := list;
    while pos + 4 <= extensionsEnd
      invariant start <= pos <= extensionsEnd && left == record[pos..extensionsEnd]
      invariant ScanExtensions(list) == ScanExtensions(left)
    {
      ExtensionStep(record, pos, extensionsEnd);
      var extType := U16At(record, pos);
      var extLen := U16At(record, pos + 2);
      pos := pos + 4;
      if pos + extLen > extensionsEnd { return None; }
      if extType == 0 {
        if extLen < 2 { return None; }
        name := FindHostName(record, pos + 2, pos + extLen);
        return;
      }
      pos := pos + extLen;
      left := record[pos..extensionsEnd];
    }
    return None;
  }

  method FindHostName(record: seq<byte>, start: nat, snEnd: nat) returns (name: Option<seq<byte>>)
    requires start <= snEnd <= |record|
    ensures name == ScanNames(record[start..snEnd])
  {
    var snPos := start;
    ghost var list := record[start..snEnd];
    ghost var left := list;
    while snPos + 3 <= snEnd
      invariant start <= snPos <= snEnd && left == record[snPos..snEnd]
      invariant ScanNames(list) == ScanNames(left)
    {
      NameStep(record, snPos, snEnd);
      var nameType := record[snPos];
      var nameLen := U16At(record, snPos + 1);
      snPos := snPos + 3;
      if snPos + nameLen > snEnd { return None; }
      if nameType == 0 { return Some(record[snPos..snPos + nameLen]); }
      snPos := snPos + nameLen;
      left := record[snPos..snEnd];
    }
    return None;
  }

  // ----- any byte string: what is returned was there -----

  /** s[at..] starts with a name-list entry of type host_name that carries `name`. */
  predicate HostEntry(s: seq<byte>, at: nat, name: seq<byte>) {
    && at + 3 + |name| <= |s| && s[at] == 0
    && U16At(s, at + 1) == |name| && s[at + 3..at + 3 + |name|] == name
  }

  /** s[at..] starts with a server_name extension whose body has `len` octets. */
  predicate NameExtension(s: seq<byte>, at: nat, len: nat) {
    at + 4 + len <= |s| && len >= 2 && U16At(s, at) == 0 && U16At(s, at + 2) == len
  }

  /** Going through whole extensions of r[pos..end] that are not server_name leads from `pos` to `ext`. */
  predicate SkipsExtensions(r: seq<byte>, pos: nat, end: nat, ext: nat)
    decreases end - pos
  {
    || pos == ext
    || (&& pos + 4 <= end <= |r| && U16At(r, pos) != 0 && pos + 4 + U16At(r, pos + 2) <= end
        && SkipsExtensions(r, pos + 4 + U16At(r, pos + 2), end, ext))
  }

  /** Going through whole entries of the name list r[pos..end] that are not host_name leads from `pos` to `at`. */
  predicate SkipsNames(r: seq<byte>, pos: nat, end: nat, at: nat)
    decreases end - pos
  {
    || pos == at
    || (&& pos + 3 <= end <= |r| && r[pos] != 0 && pos + 3 + U16At(r, pos + 1) <= end
        && SkipsNames(r, pos + 3 + U16At(r, pos + 1), end, at))
  }

  /** `name` is the first host_name, at `at`, of the first server_name extension, at `ext`, of the list r[start..end]. */
  predicate FoundAt(r: seq<byte>, name: seq<byte>, start: nat, end: nat, ext: nat, len: nat, at: nat) {
    && end <= |r| && SkipsExtensions(r, start, end, ext)
    && ext + 4 + len <= end && NameExtension(r, ext, len)
    && SkipsNames(r, ext + 6, ext + 4 + len, at)
    && at + 3 + |name| <= ext + 4 + len && HostEntry(r, at, name)
  }

  /** Where the entry after the one at `pos` starts, and the same for extensions. */
  function NextName(r: seq<byte>, pos: nat): (next: nat)
    requires pos + 3 <= |r|
    ensures next >= pos + 3
  {
    pos + 3 + U16At(r, pos + 1)
  }

  function NextExtension(r: seq<byte>, pos: nat): (next: nat)
    requires pos + 4 <= |r|
    ensures next >= pos + 4
  {
    pos + 4 + U16At(r, pos + 2)
  }

  lemma {:induction false} ScanNamesSound(r: seq<byte>, pos: nat, end: nat, list: seq<byte>) returns (at: nat)
    requires pos <= end <= |r| && list == r[pos..end] && ScanNames(list).Some?
    ensures SkipsNames(r, pos, end, at)
    ensures HostEntry(r, at, ScanNames(list).value) && at + 3 + |ScanNames(list).value| <= end
    decreases end - pos
  {
    NameStep(r, pos, end);
    if r[pos] == 0 {
      at := pos;
    } else {
      var next := NextName(r, pos);
      at := ScanNamesSound(r, next, end, r[next..end]);
    }
  }

  lemma {:induction false} ScanExtensionsSound(r: seq<byte>, start: nat, end: nat, list: seq<byte>)
    returns (ext: nat, len: nat, at: nat)
    requires start <= end <= |r| && list == r[start..end] && ScanExtensions(list).Some?
    ensures FoundAt(r, ScanExtensions(list).value, start, end, ext, len, at)
    decreases end - start
  {
    ExtensionStep(r, start, end);
    var next := NextExtension(r, start);
    if U16At(r, start) == 0 {
      var names := r[start + 6..next];
      assert ScanExtensions(list) == ScanNames(names);
      at := ScanNamesSound(r, start + 6, next, names);
      ext, len := start, U16At(r, start + 2);
    } else {
      var rest := r[next..end];
      assert ScanExtensions(list) == ScanExtensions(rest);
      ext, len, at := ScanExtensionsSound(r, next, end, rest);
    }
  }

  /** A name list has at most one such place: what is found there is what the scan returns. */
  lemma {:induction false} ScanNamesExact(r: seq<byte>, pos: nat, end: nat, list: seq<byte>, at: nat, name: seq<byte>)
    requires pos <= end <= |r| && list == r[pos..end]
    requires SkipsNames(r, pos, end, at) && HostEntry(r, at, name) && at + 3 + |name| <= end
    ensures ScanNames(list) == Some(name)
    decreases end - pos
  {
    NameStep(r, pos, end);
    if pos != at {
      var next := NextName(r, pos);
      ScanNamesExact(r, next, end, r[next..end], at, name);
    }
  }

  lemma {:induction false} ScanExtensionsExact(r: seq<byte>, name: seq<byte>, start: nat, end: nat, list: seq<byte>,
                                               ext: nat, len: nat, at: nat)
    requires start <= end && FoundAt(r, name, start, end, ext, len, at) && list == r[start..end]
    ensures ScanExtensions(list) == Some(name)
    decreases end - start
  {
    ExtensionStep(r, start, end);
    var next := NextExtension(r, start);
    if start == ext {
      ScanNamesExact(r, ext + 6, next, r[ext + 6..next], at, name);
    } else {
      ScanExtensionsExact(r, name, next, end, r[next..end], ext, len, at);
    }
  }

  /**
   * For every byte string: a returned name is valid UTF-8 and is the first host_name entry of the first
   * server_name extension of the declared extension list, found by going through whole extensions and whole
   * entries, all inside the record.
   */
  lemma Soundness(r: seq<byte>) returns (start: nat, end: nat, ext: nat, len: nat, at: nat)
    requires SniOf(r).Some?
    ensures ValidUtf8(SniOf(r).value)
    ensures 46 <= start <= end <= |r| && end == start + U16At(r, start - 2)
    ensures FromBlock(r) == Some(r[start - 2..])
    ensures FoundAt(r, SniOf(r).value, start, end, ext, len, at)
  {
    start := FromBlockSuffix(r);
    end := BlockList(r, start);
    ext, len, at := ScanExtensionsSound(r, start, end, r[start..end]);
  }

  /** Conversely every byte string with a name in such a place makes the parser return it, if it is valid UTF-8. */
  lemma FoundIsReturned(r: seq<byte>, name: seq<byte>, start: nat, end: nat, ext: nat, len: nat, at: nat)
    requires 46 <= start <= end && start <= |r| && FromBlock(r) == Some(r[start - 2..]) && end == start + U16At(r, start - 2)
    requires FoundAt(r, name, start, end, ext, len, at)
    ensures SniOf(r) == HostString(Some(name))
  {
    ScanExtensionsExact(r, name, start, end, r[start..end], ext, len, at);
    BlockIs(r, start, end);
  }

  lemma BlockIs(r: seq<byte>, start: nat, end: nat)
    requires 2 <= start <= end <= |r| && end == start + U16At(r, start - 2)
    ensures ScanBlock(r[start - 2..]) == ScanExtensions(r[start..end])
  {
    var s, n := r[start - 2..], end - start;
    assert U16At(s, 0) == n;
    SliceOfSlice(r, start - 2, |r|, 2, 2 + n);
    assert r[start - 2..|r|] == s;
  }

  lemma BlockList(r: seq<byte>, start: nat) returns (end: nat)
    requires 2 <= start <= |r| && ScanBlock(r[start - 2..]).Some?
    ensures start <= end <= |r| && end == start + U16At(r, start - 2)
    ensures ScanBlock(r[start - 2..]) == ScanExtensions(r[start..end])
  {
    end := start + U16At(r, start - 2);
    assert U16At(r[start - 2..], 0) == end - start;
    BlockIs(r, start, end);
  }

  lemma FromBlockSuffix(r: seq<byte>) returns (start: nat)
    requires FromBlock(r).Some?
    ensures 46 <= start <= |r| && FromBlock(r) == Some(r[start - 2..])
  {
    var s2 := Skip8(r[43..], 2).value;
    var s3 := Skip16(s2, 1).value;
    var s4 := Skip8(s3, 2).value;
    assert s2 == r[|r| - |s2|..];
    assert s3 == r[|r| - |s3|..];
    assert s4 == r[|r| - |s4|..];
    start := |r| - |s4| + 2;
  }

  // ----- well-formed ClientHello messages -----

  datatype ServerNameEntry = ServerNameEntry(nameType: byte, name: seq<byte>)

  datatype Extension =
    | ServerName(names: seq<ServerNameEntry>)
    | OtherExtension(extType: u16, data: seq<byte>)

  datatype ClientHello = ClientHello(
    version: seq<byte>,
    random: seq<byte>,
    sessionId: seq<byte>,
    ciphers: seq<byte>,
    compression: seq<byte>,
    extensions: Option<seq<Extension>>)

  /** Two- and three-octet length fields. */
  function U16(n: nat): seq<byte> { [n / 256 % 256, n % 256] }

  function U24(n: nat): seq<byte> { [n / 65536 % 256] + U16(n) }

  function EntryBytes(e: ServerNameEntry): seq<byte> {
    [e.nameType] + (U16(|e.name|) + e.name)
  }

  function NamesBytes(names: seq<ServerNameEntry>): seq<byte> {
    if names == [] then [] else EntryBytes(names[0]) + NamesBytes(names[1..])
  }

  function ExtensionType(e: Extension): u16 {
    if e.ServerName? then 0 else e.extType
  }

  function ExtensionBody(e: Extension): seq<byte> {
    if e.ServerName? then U16(|NamesBytes(e.names)|) + NamesBytes(e.names) else e.data
  }

  function ExtensionBytes(e: Extension): seq<byte> {
    U16(ExtensionType(e)) + (U16(|ExtensionBody(e)|) + ExtensionBody(e))
  }

  function ExtensionsBytes(es: seq<Extension>): seq<byte> {
    if es == [] then [] else ExtensionBytes(es[0]) + ExtensionsBytes(es[1..])
  }

  /** The extension list with its length. */
  function Block(es: seq<Extension>): seq<byte> {
    U16(|ExtensionsBytes(es)|) + ExtensionsBytes(es)
  }

  /** Session id, cipher suites and compression methods, each with its length. */
  function Vectors(h: ClientHello): seq<byte>
    requires |h.sessionId| < 256 && |h.compression| < 256
  {
    ([|h.sessionId|] + h.sessionId) + (U16(|h.ciphers|) + h.ciphers) + ([|h.compression|] + h.compression)
  }

  /** The extension list, which a ClientHello before TLS 1.3 may omit. */
  function Extensions(h: ClientHello): seq<byte> {
    if h.extensions.Some? then Block(h.extensions.value) else []
  }

  function HelloBytes(h: ClientHello): seq<byte>
    requires |h.sessionId| < 256 && |h.compression| < 256
  {
    h.version + h.random + Vectors(h) + Extensions(h)
  }

  /** A handshake record whose content starts with a ClientHello message. */
  function Wrap(version: seq<byte>, hello: seq<byte>, more: seq<byte>): seq<byte> {
    [0x16] + version + U16(4 + |hello| + |more|) + ([0x01] + U24(|hello|)) + (hello + more)
  }

  /** One handshake record that starts with the ClientHello; `more` is any further content of the record. */
  function Record(version: seq<byte>, h: ClientHello, more: seq<byte>): seq<byte>
    requires |h.sessionId| < 256 && |h.compression| < 256
  {
    Wrap(version, HelloBytes(h), more)
  }

  predicate EntriesFit(names: seq<ServerNameEntry>) {
    names == [] || (|names[0].name| < 65536 && EntriesFit(names[1..]))
  }

  predicate ExtensionFits(e: Extension) {
    && |ExtensionBody(e)| < 65536
    && (e.ServerName? ==> EntriesFit(e.names))
    && (e.OtherExtension? ==> e.extType != 0)
  }

  predicate EachFits(es: seq<Extension>) {
    es == [] || (ExtensionFits(es[0]) && EachFits(es[1..]))
  }

  predicate ExtensionsFit(es: seq<Extension>) {
    |ExtensionsBytes(es)| < 65536 && EachFits(es)
  }

  /** Field sizes within their length prefixes. */
  predicate WellFormed(version: seq<byte>, h: ClientHello, more: seq<byte>) {
    && |version| == 2 && |h.version| == 2 && |h.random| == 32
    && |h.sessionId| < 256 && |h.ciphers| < 65536 && |h.compression| < 256
    && (h.extensions.Some? ==> ExtensionsFit(h.extensions.value))
    && 4 + |HelloBytes(h)| + |more| < 65536
  }

  /** First host_name entry of a name list. */
  function FirstHost(names: seq<ServerNameEntry>): Option<seq<byte>> {
    if names == [] then None
    else if names[0].nameType == 0 then Some(names[0].name)
    else FirstHost(names[1..])
  }

  /** The name the extensions of a ClientHello announce: only the first server_name extension counts. */
  function Announced(es: seq<Extension>): Option<seq<byte>> {
    if es == [] then None
    else if es[0].ServerName? then FirstHost(es[0].names)
    else Announced(es[1..])
  }

  // ----- the parser finds what was announced -----

  lemma U16Written(n: nat, rest: seq<byte>)
    requires n < 65536
    ensures |U16(n) + rest| == 2 + |rest| && U16At(U16(n) + rest, 0) == n && (U16(n) + rest)[2..] == rest
  {
    assert n / 256 % 256 == n / 256;
  }

  lemma {:induction false} ScanNamesFinds(names: seq<ServerNameEntry>)
    requires EntriesFit(names)
    ensures ScanNames(NamesBytes(names)) == FirstHost(names)
    decreases |names|
  {
    if names != [] {
      var e, rest := names[0], NamesBytes(names[1..]);
      EntryHead(e, rest);
      ScanNamesFinds(names[1..]);
    }
  }

  lemma EntryHead(e: ServerNameEntry, rest: seq<byte>)
    requires |e.name| < 65536
    ensures var s := EntryBytes(e) + rest;
            && |s| == 3 + |e.name| + |rest| && s[0] == e.nameType && U16At(s, 1) == |e.name|
            && s[3..3 + |e.name|] == e.name && s[3 + |e.name|..] == rest
  {
    var s := EntryBytes(e) + rest;
    assert s[1..] == U16(|e.name|) + (e.name + rest);
    U16Written(|e.name|, e.name + rest);
  }

  lemma ExtensionHead(e: Extension, rest: seq<byte>)
    requires |ExtensionBody(e)| < 65536
    ensures var s, n := ExtensionBytes(e) + rest, |ExtensionBody(e)|;
            && |s| == 4 + n + |rest| && U16At(s, 0) == ExtensionType(e) && U16At(s, 2) == n
            && s[4..4 + n] == ExtensionBody(e) && s[4 + n..] == rest
  {
    var s, body := ExtensionBytes(e) + rest, ExtensionBody(e);
    assert s == U16(ExtensionType(e)) + (U16(|body|) + (body + rest));
    U16Written(ExtensionType(e), U16(|body|) + (body + rest));
    U16Written(|body|, body + rest);
  }

  lemma {:induction false} ScanExtensionsFinds(es: seq<Extension>)
    requires EachFits(es)
    ensures ScanExtensions(ExtensionsBytes(es)) == Announced(es)
    decreases |es|
  {
    if es != [] {
      var e, rest := es[0], ExtensionsBytes(es[1..]);
      ExtensionHead(e, rest);
      if e.ServerName? {
        var s, n := ExtensionBytes(e) + rest, |ExtensionBody(e)|;
        assert s[6..4 + n] == s[4..4 + n][2..] == NamesBytes(e.names);
        ScanNamesFinds(e.names);
      } else {
        ScanExtensionsFinds(es[1..]);
      }
    }
  }

  lemma ScanBlockFinds(es: seq<Extension>, rest: seq<byte>)
    requires ExtensionsFit(es)
    ensures ScanBlock(Block(es) + rest) == Announced(es)
  {
    var bytes := ExtensionsBytes(es);
    var s := Block(es) + rest;
    assert s == U16(|bytes|) + (bytes + rest);
    U16Written(|bytes|, bytes + rest);
    assert s[2..2 + |bytes|] == s[2..][..|bytes|] == bytes;
    ScanExtensionsFinds(es);
  }

  /** The variable-length fields of the prelude lead to what follows it. */
  lemma SkipsVectors(h: ClientHello, rest: seq<byte>)
    requires |h.sessionId| < 256 && |h.ciphers| < 65536 && |h.compression| < 256
    ensures var s2 := Skip8(Vectors(h) + rest, 2);
            && s2.Some?
            && var s3 := Skip16(s2.value, 1);
               s3.Some? && Skip8(s3.value, 2) == if |rest| < 2 then None else Some(rest)
  {
    var c3 := [|h.compression|] + h.compression + rest;
    var c2 := U16(|h.ciphers|) + (h.ciphers + c3);
    var c1 := [|h.sessionId|] + h.sessionId + c2;
    assert Vectors(h) + rest == c1;
    assert c1[1 + |h.sessionId|..] == c2;
    U16Written(|h.ciphers|, h.ciphers + c3);
    assert c2[2 + |h.ciphers|..] == c2[2..][|h.ciphers|..] == c3;
    assert c3[1 + |h.compression|..] == rest;
  }

  lemma RecordHead(version: seq<byte>, hello: seq<byte>, more: seq<byte>)
    requires |version| == 2 && 4 + |hello| + |more| < 65536
    ensures var r := Wrap(version, hello, more);
            && |r| == 9 + |hello| + |more|
            && r[0] == 0x16 && U16At(r, 3) == 4 + |hello| + |more|
            && r[5] == 0x01 && U24At(r, 6) == |hello|
            && r[9..] == hello + more
  {
    var n, r := 4 + |hello| + |more|, Wrap(version, hello, more);
    assert r[3..] == U16(n) + ([0x01] + U24(|hello|) + (hello + more));
    U16Written(n, [0x01] + U24(|hello|) + (hello + more));
    assert r[7..] == U16(|hello|) + (hello + more);
    U16Written(|hello|, hello + more);
    assert r[6..][1..] == r[7..];
  }

  /** Header, handshake header and all fields before the extension list lead the parser past the prelude. */
  lemma ReachesBlock(version: seq<byte>, h: ClientHello, more: seq<byte>)
    requires WellFormed(version, h, more)
    ensures var rest := Extensions(h) + more;
            FromBlock(Record(version, h, more)) == if |rest| < 2 then None else Some(rest)
  {
    var fixed, vectors, rest := h.version + h.random, Vectors(h), Extensions(h) + more;
    var hello := HelloBytes(h);
    RecordHead(version, hello, more);
    HelloTail(fixed, vectors, Extensions(h), more, Wrap(version, hello, more)[9..]);
    DropDrop(Wrap(version, hello, more), 9, 34);
    SkipsVectors(h, rest);
  }

  lemma HelloTail(fixed: seq<byte>, vectors: seq<byte>, exts: seq<byte>, more: seq<byte>, s: seq<byte>)
    requires |fixed| == 34 && s == fixed + vectors + exts + more
    ensures s[34..] == vectors + (exts + more)
  {
  }

  lemma DropDrop(s: seq<byte>, a: nat, b: nat)
    requires a + b <= |s|
    ensures s[a..][b..] == s[a + b..]
  {
  }

  /** What a ClientHello announces: a host name that is valid UTF-8, in its extension list. */
  function Expected(h: ClientHello): Option<seq<byte>> {
    if h.extensions.Some? then HostString(Announced(h.extensions.value)) else None
  }

  /** The bytes, taken as an extension list with its length, hold `name` as first host_name of their first server_name. */
  ghost predicate Holds(s: seq<byte>, name: seq<byte>) {
    |s| >= 2 && Lists(s, 2 + U16At(s, 0), name)
  }

  ghost predicate Lists(s: seq<byte>, end: nat, name: seq<byte>) {
    exists ext: nat, len: nat, at: nat :: FoundAt(s, name, 2, end, ext, len, at)
  }

  lemma ScanBlockIff(s: seq<byte>, name: seq<byte>)
    ensures ScanBlock(s) == Some(name) <==> Holds(s, name)
  {
    if |s| >= 2 {
      var end := 2 + U16At(s, 0);
      assert s[0..] == s;
      if end <= |s| {
        BlockIs(s, 2, end);
        if ScanBlock(s) == Some(name) {
          var ext, len, at := ScanExtensionsSound(s, 2, end, s[2..end]);
        }
      }
      if Holds(s, name) {
        var ext: nat, len: nat, at: nat :| FoundAt(s, name, 2, end, ext, len, at);
        ScanExtensionsExact(s, name, 2, end, s[2..end], ext, len, at);
      }
    }
  }

  /**
   * For every well-formed ClientHello at the start of a record, with any session id, cipher and compression lists,
   * extensions in any order and anything after it, the parser returns the first host_name of the first server_name
   * extension if it is valid UTF-8, and nothing if there is none, if and only if the hello has an extension list or
   * the bytes after it do not hold a name in the place of one.
   */
  lemma Completeness(version: seq<byte>, h: ClientHello, more: seq<byte>)
    requires WellFormed(version, h, more)
    ensures SniOf(Record(version, h, more)) == Expected(h)
       <==> h.extensions.Some? || forall name :: Holds(more, name) ==> !ValidUtf8(name)
  {
    if h.extensions.Some? {
      ReachesBlock(version, h, more);
      ScanBlockFinds(h.extensions.value, more);
    } else {
      ReadsPastHello(version, h, more);
      var found := ScanBlock(more);
      if found.Some? { ScanBlockIff(more, found.value); }
      forall name | Holds(more, name) ensures found == Some(name) {
        ScanBlockIff(more, name);
      }
    }
  }

  /**
   * The parser does not stop at the end of the handshake message: when a ClientHello has no extension list,
   * whatever follows it in the same record is read as one, so a name can be returned that the hello never
   * announced. With no extension list the answer is None exactly when those bytes announce nothing.
   */
  lemma ReadsPastHello(version: seq<byte>, h: ClientHello, more: seq<byte>)
    requires WellFormed(version, h, more) && h.extensions.None?
    ensures SniOf(Record(version, h, more)) == HostString(ScanBlock(more))
  {
    ReachesBlock(version, h, more);
    assert Extensions(h) + more == more;
  }

  /** The misread in full: every name announced by extensions that follow such a hello in its record is returned. */
  lemma ForeignExtensions(version: seq<byte>, h: ClientHello, foreign: seq<Extension>, rest: seq<byte>)
    requires h.extensions.None? && ExtensionsFit(foreign)
    requires WellFormed(version, h, Block(foreign) + rest)
    ensures SniOf(Record(version, h, Block(foreign) + rest)) == HostString(Announced(foreign))
  {
    ReadsPastHello(version, h, Block(foreign) + rest);
    ScanBlockFinds(foreign, rest);
  }
}
