/** HTTP Basic credentials (section 2 of RFC 7617) on the upgrade request. */
module BasicAuth {
  import opened Wrappers
  import opened Text
  import Base64
  import Utf8

  const SCHEME := "Basic "

  /** `str::split_once(':')`. */
  function SplitOnce(s: string): Option<(string, string)> {
    match Find(s, ":")
    case None => None
    case Some(i) => Some((s[..i], s[i + 1..]))
  }

  predicate CheckBasicAuth(header: Option<string>, user: string, password: string) {
    match header
    case None => false
    case Some(h) =>
      SCHEME <= h &&
      match Base64.Decode(Trim(h[|SCHEME|..]))
      case None => false
      case Some(decoded) =>
        match Utf8.Decode(decoded)
        case None => false
        case Some(s) =>
          match SplitOnce(s)
          case None => false
          case Some((u, p)) => Utf8.Encode(u) == Utf8.Encode(user) && Utf8.Encode(p) == Utf8.Encode(password)
  }

  function Pair(user: string, password: string): string {
    user + ":" + password
  }

  function BasicHeaderValue(user: string, password: string): string {
    SCHEME + Base64.Encode(Utf8.Encode(Pair(user, password)))
  }

  lemma SplitOnceIff(s: string, user: string, password: string)
    ensures SplitOnce(s) == Some((user, password)) <==> s == Pair(user, password) && ':' !in user
  {
    if s == Pair(user, password) && ':' !in user {
      forall i: nat | i < |user| ensures !OccursAt(s, ":", i) {
        assert s[i] == user[i] && user[i] in user;
        NoOccurrence(s, ":", i, 0);
      }
      assert s[|user|..] == ":" + password;
      FindIs(s, ":", |user|);
      assert s[..|user|] == user && s[|user| + 1..] == password;
    }
    if SplitOnce(s) == Some((user, password)) {
      var i := Find(s, ":").value;
      assert s[i..][0] == ':';
      assert s == s[..i] + [s[i]] + s[i + 1..];
      if ':' in user {
        var k :| 0 <= k < |user| && user[k] == ':';
        assert s[k..][0] == s[k] == ':';
        assert OccursAt(s, ":", k);
        assert false;
      }
    }
  }

  lemma GivenHeaderIff(header: string, user: string, password: string)
    ensures CheckBasicAuth(Some(header), user, password) <==>
      && ':' !in user
      && SCHEME <= header
      && Trim(header[|SCHEME|..]) == Base64.Encode(Utf8.Encode(Pair(user, password)))
  {
    hide Base64.Encode, Base64.Decode, Utf8.Encode, Utf8.Decode, Trim, SplitOnce;
    if SCHEME <= header {
      var body := Trim(header[|SCHEME|..]);
      var bytes := Utf8.Encode(Pair(user, password));
      Base64.DecodeIffEncode(body, bytes);
      Utf8.DecodeIffEncode(bytes, Pair(user, password));
      SplitOnceIff(Pair(user, password), user, password);
      if CheckBasicAuth(Some(header), user, password) {
        var decoded := Base64.Decode(body).value;
        var s := Utf8.Decode(decoded).value;
        var (u, p) := SplitOnce(s).value;
        Utf8.EncodeInjective(u, user);
        Utf8.EncodeInjective(p, password);
        SplitOnceIff(s, user, password);
        Utf8.DecodeIffEncode(decoded, s);
      }
    }
  }

  /** A request is accepted exactly when it has a header, which is `Basic ` followed, up to surrounding
      white space, by the encoding of the configured pair, and the configured user has no colon. */
  lemma AcceptedIff(header: Option<string>, user: string, password: string)
    ensures CheckBasicAuth(header, user, password) <==>
      && ':' !in user
      && header.Some?
      && SCHEME <= header.value
      && Trim(header.value[|SCHEME|..]) == Base64.Encode(Utf8.Encode(Pair(user, password)))
  {
    hide Base64.Encode, Base64.Decode, Utf8.Encode, Utf8.Decode, Trim, SplitOnce;
    if header.Some? {
      GivenHeaderIff(header.value, user, password);
    }
  }

  lemma TrimEncoded(bytes: seq<Byte>)
    ensures Trim(Base64.Encode(bytes)) == Base64.Encode(bytes)
  {
    var s := Base64.Encode(bytes);
    Base64.EncodedAlphabet(bytes);
    hide Base64.Encode;
    if |s| > 0 {
      assert s[0] in s && s[|s| - 1] in s;
    }
  }

  /** A header built by the client is accepted exactly when the two pairs read the same and the
      configured user has no colon; passwords may hold colons. */
  lemma BuiltHeaderAccepted(user: string, password: string, configuredUser: string, configuredPassword: string)
    ensures CheckBasicAuth(Some(BasicHeaderValue(user, password)), configuredUser, configuredPassword) <==>
      ':' !in configuredUser && Pair(user, password) == Pair(configuredUser, configuredPassword)
    ensures ':' !in user && ':' !in configuredUser ==>
      (CheckBasicAuth(Some(BasicHeaderValue(user, password)), configuredUser, configuredPassword) <==>
       user == configuredUser && password == configuredPassword)
  {
    hide CheckBasicAuth, Base64.Encode, Base64.Decode, Utf8.Encode, Utf8.Decode, Trim, SplitOnce;
    var header := BasicHeaderValue(user, password);
    var sent := Utf8.Encode(Pair(user, password));
    var wanted := Utf8.Encode(Pair(configuredUser, configuredPassword));
    assert header[|SCHEME|..] == Base64.Encode(sent) && header[..|SCHEME|] == SCHEME;
    TrimEncoded(sent);
    GivenHeaderIff(header, configuredUser, configuredPassword);
    Base64.DecodeIffEncode(Base64.Encode(sent), sent);
    Base64.DecodeIffEncode(Base64.Encode(sent), wanted);
    Utf8.DecodeIffEncode(sent, Pair(user, password));
    Utf8.DecodeIffEncode(sent, Pair(configuredUser, configuredPassword));
    SplitOnceIff(Pair(user, password), user, password);
    SplitOnceIff(Pair(user, password), configuredUser, configuredPassword);
  }
}
