/**
 * The Basic credentials the command line sends and the admin server checks (section 2 of RFC 7617).
 * Rust strings are their UTF-8 octets.
 */
module BasicAuth {
  import opened Bytes
  import opened Base64
  import opened Text
  import opened Utf8

  const COLON: byte := 58
  const SCHEME: seq<byte> := [66, 97, 115, 105, 99, 32]  // "Basic "

  /** Header values that can be viewed as text: visible ASCII and tab. */
  predicate Visible(header: seq<byte>) {
    forall i :: 0 <= i < |header| ==> 32 <= header[i] < 127 || header[i] == 9
  }

  function Credentials(user: seq<byte>, pwd: seq<byte>): seq<byte> {
    user + [COLON] + pwd
  }

  /** The value the command line sends; nothing when user or password is empty. */
  function CliHeader(user: seq<byte>, pwd: seq<byte>): Option<seq<byte>> {
    if user != [] && pwd != [] then Some(SCHEME + Encode(Credentials(user, pwd))) else None
  }

  function StripPrefix(s: seq<byte>, prefix: seq<byte>): Option<seq<byte>> {
    if prefix <= s then Some(s[|prefix|..]) else None
  }

  predicate CheckBasicAuth(header: Option<seq<byte>>, user: seq<byte>, pwd: seq<byte>) {
    && header.Some? && Visible(header.value)
    && var encoded := StripPrefix(header.value, SCHEME);
       && encoded.Some?
       && var decoded := Decode(encoded.value);
          && ValidUtf8(decoded)
          && SplitOnce(decoded, COLON) == Some((user, pwd))
  }

  lemma {:induction false} EncodeVisible(x: seq<byte>)
    ensures Visible(Encode(x))
    decreases |x|
  {
    if x != [] {
      EncodeVisible(Drop(x, 3));
    }
  }

  lemma HeaderDecodes(user: seq<byte>, pwd: seq<byte>)
    requires user != [] && pwd != [] && ValidUtf8(user) && ValidUtf8(pwd)
    ensures var h := CliHeader(user, pwd).value;
            && Visible(h) && StripPrefix(h, SCHEME).Some?
            && Decode(StripPrefix(h, SCHEME).value) == Credentials(user, pwd)
            && ValidUtf8(Credentials(user, pwd))
  {
    var c := Credentials(user, pwd);
    var h := SCHEME + Encode(c);
    EncodeVisible(c);
    DecodeEncode(c);
    assert h[|SCHEME|..] == Encode(c);
    assert ValidUtf8([COLON]) by { assert [COLON][1..] == []; }
    ValidConcat(user, [COLON]);
    ValidConcat(user + [COLON], pwd);
  }

  /**
   * The admin server accepts what the command line sends exactly when the user it expects has no ':' and
   * both ends mean the same "user:password" text.
   */
  lemma CliAccepted(user: seq<byte>, pwd: seq<byte>, expectedUser: seq<byte>, expectedPwd: seq<byte>)
    requires user != [] && pwd != [] && ValidUtf8(user) && ValidUtf8(pwd)
    ensures CheckBasicAuth(CliHeader(user, pwd), expectedUser, expectedPwd)
       <==> COLON !in expectedUser && Credentials(user, pwd) == Credentials(expectedUser, expectedPwd)
  {
    HeaderDecodes(user, pwd);
    SplitSound(Credentials(user, pwd), COLON);
    if COLON !in expectedUser {
      SplitJoin(expectedUser, COLON, expectedPwd);
    }
  }

  /** For users without ':' that is: user and password both match. */
  lemma AcceptedIffEqual(user: seq<byte>, pwd: seq<byte>, expectedUser: seq<byte>, expectedPwd: seq<byte>)
    requires user != [] && pwd != [] && ValidUtf8(user) && ValidUtf8(pwd) && COLON !in user
    ensures CheckBasicAuth(CliHeader(user, pwd), expectedUser, expectedPwd) <==> user == expectedUser && pwd == expectedPwd
  {
    CliAccepted(user, pwd, expectedUser, expectedPwd);
    SplitJoin(user, COLON, pwd);
    if COLON !in expectedUser {
      SplitJoin(expectedUser, COLON, expectedPwd);
    }
  }

  /** The admin server installs the check only when it has both a user and a password; otherwise it serves every request. */
  predicate Served(header: Option<seq<byte>>, expectedUser: seq<byte>, expectedPwd: seq<byte>) {
    var needAuth := expectedUser != [] && expectedPwd != [];
    needAuth ==> CheckBasicAuth(header, expectedUser, expectedPwd)
  }

  /** For every pair of configurations: when the command line gets past the admin server. */
  lemma CliServed(user: seq<byte>, pwd: seq<byte>, expectedUser: seq<byte>, expectedPwd: seq<byte>)
    requires ValidUtf8(user) && ValidUtf8(pwd)
    ensures Served(CliHeader(user, pwd), expectedUser, expectedPwd)
       <==> || expectedUser == [] || expectedPwd == []
            || (&& user != [] && pwd != [] && COLON !in expectedUser
                && Credentials(user, pwd) == Credentials(expectedUser, expectedPwd))
  {
    if user != [] && pwd != [] {
      CliAccepted(user, pwd, expectedUser, expectedPwd);
    }
  }

  /** One configuration on both sides works exactly when no check is installed or its user has no ':'. */
  lemma OwnCredentialsWork(user: seq<byte>, pwd: seq<byte>)
    requires ValidUtf8(user) && ValidUtf8(pwd)
    ensures Served(CliHeader(user, pwd), user, pwd) <==> user == [] || pwd == [] || COLON !in user
  {
    CliServed(user, pwd, user, pwd);
  }
}
