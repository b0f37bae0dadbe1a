/**
 * The invitation entity (src/Entity/UserInvitation.php): a random token
 * written as lowercase hexadecimal, an expiry 48 hours after construction,
 * and the time it was accepted, if it was.  The random bytes and the clock
 * readings are parameters.
 */
module InvitationEntity {
  import opened Wrappers
  import opened Domain

  type byte = x: int | 0 <= x < 256

  /** `random_bytes(32)`. */
  const TokenBytes: nat := 32

  /** `'+48 hours'`, in seconds. */
  const ExpiryPeriod: Instant := 48 * 60 * 60

  predicate IsHexDigit(c: char)
  {
    '0' <= c <= '9' || 'a' <= c <= 'f'
  }

  function HexDigit(v: int): (c: char)
    requires 0 <= v < 16
    ensures IsHexDigit(c)
  {
    if v < 10 then ('0' as int + v) as char else ('a' as int + v - 10) as char
  }

  /** `hexdec` of one digit; anything that is not a digit reads as 0. */
  function DigitValue(c: char): (v: int)
    ensures 0 <= v < 16
    ensures IsHexDigit(c) ==> HexDigit(v) == c
  {
    if '0' <= c <= '9' then c as int - '0' as int
    else if 'a' <= c <= 'f' then c as int - 'a' as int + 10
    else 0
  }

  /** Reading back a written digit gives its value. */
  lemma DigitRoundTrip(v: int)
    requires 0 <= v < 16
    ensures DigitValue(HexDigit(v)) == v
  {
  }

  /** Every character is a lowercase hexadecimal digit. */
  predicate AllHex(s: string)
  {
    forall i :: 0 <= i < |s| ==> IsHexDigit(s[i])
  }

  /** `bin2hex`: two lowercase digits per byte, the high half first. */
  function Hex(bytes: seq<byte>): (s: string)
    ensures |s| == 2 * |bytes|
    ensures AllHex(s)
  {
    if bytes == [] then [] else [HexDigit(bytes[0] / 16), HexDigit(bytes[0] % 16)] + Hex(bytes[1..])
  }

  /** `hex2bin`, the inverse of `Hex`, reading two digits per byte. */
  function Unhex(s: string): seq<byte>
  {
    if |s| < 2 then [] else [DigitValue(s[0]) * 16 + DigitValue(s[1])] + Unhex(s[2..])
  }

  /** One unfolding of `Hex`. */
  lemma HexCons(b: byte, rest: seq<byte>)
    ensures Hex([b] + rest) == [HexDigit(b / 16), HexDigit(b % 16)] + Hex(rest)
  {
    assert ([b] + rest)[1..] == rest;
  }

  /** Dropping the first two digits keeps a string of hex digits. */
  lemma AllHexTail(s: string)
    requires 2 <= |s| && AllHex(s)
    ensures AllHex(s[2..])
  {
    forall i | 0 <= i < |s[2..]| ensures IsHexDigit(s[2..][i]) {
      assert s[2..][i] == s[i + 2];
    }
  }

  lemma {:induction false} UnhexHex(bytes: seq<byte>)
    ensures Unhex(Hex(bytes)) == bytes
    decreases |bytes|
  {
    if bytes != [] {
      var b, rest := bytes[0], bytes[1..];
      assert bytes == [b] + rest;
      HexCons(b, rest);
      var s := Hex(bytes);
      assert s[2..] == Hex(rest);
      DigitRoundTrip(b / 16);
      DigitRoundTrip(b % 16);
      UnhexHex(rest);
    }
  }

  /** A byte built from two digits splits back into them. */
  lemma ByteHalves(hi: int, lo: int)
    requires 0 <= hi < 16 && 0 <= lo < 16
    ensures 0 <= hi * 16 + lo < 256
    ensures (hi * 16 + lo) / 16 == hi && (hi * 16 + lo) % 16 == lo
  {
  }

  lemma {:induction false} HexUnhex(s: string)
    requires |s| % 2 == 0 && AllHex(s)
    ensures Hex(Unhex(s)) == s
    decreases |s|
  {
    if s != [] {
      var hi, lo := DigitValue(s[0]), DigitValue(s[1]);
      ByteHalves(hi, lo);
      var b: byte := hi * 16 + lo;
      var t := s[2..];
      AllHexTail(s);
      HexUnhex(t);
      assert Unhex(s) == [b] + Unhex(t);
      HexCons(b, Unhex(t));
      assert IsHexDigit(s[0]) && IsHexDigit(s[1]);
      assert s == [s[0], s[1]] + t;
    }
  }

  /** Different random bytes give different tokens. */
  lemma HexInjective(a: seq<byte>, b: seq<byte>)
    requires Hex(a) == Hex(b)
    ensures a == b
  {
    UnhexHex(a);
    UnhexHex(b);
  }

  /** `isExpired()`: strictly past the expiry instant. */
  predicate IsExpiredAt(expiresAt: Instant, now: Instant)
  {
    now > expiresAt
  }

  /** `isValid()`: neither expired nor accepted. */
  predicate InvitationValid(expiresAt: Instant, acceptedAt: Option<Instant>, now: Instant)
  {
    !IsExpiredAt(expiresAt, now) && acceptedAt.None?
  }

  /**
   * The entity object.  The token and the expiry are set by the constructor
   * and only ever replaced by non-null values, so they are never null; the
   * id, the user and the creation time are null until set.
   */
  class UserInvitation {
    var id: Option<int>
    var user: Option<UserId>
    var token: string
    var expiresAt: Instant
    var createdAt: Option<Instant>
    var acceptedAt: Option<Instant>

    /** `generateToken()` from `randomBytes`, then `setExpirationDate()` from the clock reading `now`. */
    constructor (randomBytes: seq<byte>, now: Instant)
      requires |randomBytes| == TokenBytes
      ensures token == Hex(randomBytes) && |token| == 64
      ensures AllHex(token)
      ensures expiresAt == now + ExpiryPeriod
      ensures id == None && user == None && createdAt == None && acceptedAt == None
    {
      id, user, createdAt, acceptedAt := None, None, None, None;
      token := Hex(randomBytes);
      expiresAt := now + ExpiryPeriod;
    }

    function IsExpired(now: Instant): (expired: bool)
      reads this
      ensures expired <==> expiresAt < now
    {
      IsExpiredAt(expiresAt, now)
    }

    function IsAccepted(): (accepted: bool)
      reads this
      ensures accepted <==> acceptedAt != None
    {
      acceptedAt.Some?
    }

    /** Valid up to and including the expiry instant, and only while not accepted. */
    function IsValid(now: Instant): (valid: bool)
      reads this
      ensures valid <==> now <= expiresAt && acceptedAt == None
      ensures valid <==> !IsExpired(now) && !IsAccepted()
    {
      InvitationValid(expiresAt, acceptedAt, now)
    }

    method SetUser(user: UserId)
      modifies this`user
      ensures this.user == Some(user)
    {
      this.user := Some(user);
    }

    method SetToken(token: string)
      modifies this`token
      ensures this.token == token
    {
      this.token := token;
    }

    method SetExpiresAt(expiresAt: Instant)
      modifies this`expiresAt
      ensures this.expiresAt == expiresAt
    {
      this.expiresAt := expiresAt;
    }

    method SetCreatedAt(createdAt: Instant)
      modifies this`createdAt
      ensures this.createdAt == Some(createdAt)
    {
      this.createdAt := Some(createdAt);
    }

    /** Once an acceptance time is set, the invitation is invalid at every time. */
    method SetAcceptedAt(acceptedAt: Option<Instant>)
      modifies this`acceptedAt
      ensures this.acceptedAt == acceptedAt
      ensures acceptedAt.Some? ==> forall now :: !IsValid(now)
    {
      this.acceptedAt := acceptedAt;
    }

    /** The pre-persist hook: only the creation time is set. */
    method SetCreatedAtValue(now: Instant)
      modifies this`createdAt
      ensures createdAt == Some(now)
    {
      createdAt := Some(now);
    }
  }
}
