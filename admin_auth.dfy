/**
 * The single-admin password store: password hashing as lower-case hex of a digest, and the
 * setup, login, change-password and exists operations over the `admins` table.
 * The digest itself (SHA-256 over the UTF-8 bytes of the password) is a parameter.
 */
module AdminAuth {
  import opened Wrappers
  import opened Types
  import opened Seqs
  import opened JsText
  import opened Numbers
  import opened UriComponent

  /** A digest function: SHA-256 of the UTF-8 encoding of its argument. */
  type Digest = string -> seq<Byte>

  const AdminExistsMessage: string := "Admin already exists. Use login to authenticate."
  const NoAdminMessage: string := "No admin exists. Run setup first."
  const WrongPasswordMessage: string := "Current password is incorrect."

  predicate IsLowerHexDigit(c: char) {
    '0' <= c <= '9' || 'a' <= c <= 'f'
  }

  /** The lower-case hex digit of `d`, as `Number.prototype.toString(16)` writes it. */
  function LowerHexDigit(d: int): (c: char)
    requires 0 <= d < 16
    ensures IsLowerHexDigit(c)
  {
    if d < 10 then (48 + d) as char else (87 + d) as char
  }

  function LowerHexValue(c: char): (d: int)
    requires IsLowerHexDigit(c)
    ensures 0 <= d < 16 && LowerHexDigit(d) == c
  {
    if c <= '9' then c as int - 48 else c as int - 87
  }

  lemma LowerHexDigitValue(d: int)
    requires 0 <= d < 16
    ensures LowerHexValue(LowerHexDigit(d)) == d
  {
  }

  /** `b.toString(16)`: one digit below 16, two digits from 16 on. */
  function ByteToString16(b: Byte): string {
    if b < 16 then [LowerHexDigit(b)] else [LowerHexDigit(b / 16), LowerHexDigit(b % 16)]
  }

  /** `s.padStart(2, "0")` */
  function PadStart2(s: string): string
    decreases 2 - |s|
  {
    if |s| >= 2 then s else PadStart2("0" + s)
  }

  /** One digest byte as it appears in a hash: `b.toString(16).padStart(2, "0")`. */
  function HexByte(b: Byte): (h: string)
    ensures |h| == 2 && IsLowerHexDigit(h[0]) && IsLowerHexDigit(h[1])
    ensures LowerHexValue(h[0]) * 16 + LowerHexValue(h[1]) == b
  {
    LowerHexDigitValue(b / 16);
    LowerHexDigitValue(b % 16);
    if b < 16 then
      assert PadStart2(ByteToString16(b)) == ['0', LowerHexDigit(b)];
      PadStart2(ByteToString16(b))
    else
      PadStart2(ByteToString16(b))
  }

  /** `hashArray.map(...).join("")`: the two-digit groups of the bytes, in byte order. */
  function HexOfBytes(bs: seq<Byte>): (h: string)
    ensures |h| == 2 * |bs|
    ensures forall k :: 0 <= k < |h| ==> IsLowerHexDigit(h[k])
  {
    if bs == [] then ""
    else
      var head, rest := HexByte(bs[0]), HexOfBytes(bs[1..]);
      assert forall k :: 2 <= k < 2 + |rest| ==> (head + rest)[k] == rest[k - 2];
      head + rest
  }

  /** The recursive rendering is the map-then-join of the source. */
  lemma {:induction false} HexOfBytesIsJoin(bs: seq<Byte>)
    ensures HexOfBytes(bs) == Join(Map(bs, HexByte), "")
  {
    if |bs| == 1 {
      assert Map(bs, HexByte) == [HexByte(bs[0])];
    } else if |bs| > 1 {
      HexOfBytesIsJoin(bs[1..]);
      assert Map(bs, HexByte)[1..] == Map(bs[1..], HexByte);
    }
  }

  /** The bytes a lower-case hex string stands for, two digits per byte. */
  function ParseHex(h: string): (bs: seq<Byte>)
    requires |h| % 2 == 0
    requires forall k :: 0 <= k < |h| ==> IsLowerHexDigit(h[k])
    ensures |bs| * 2 == |h|
  {
    if h == [] then [] else [LowerHexValue(h[0]) * 16 + LowerHexValue(h[1])] + ParseHex(h[2..])
  }

  /** A hash string carries its digest exactly: parsing it back gives the bytes. */
  lemma {:induction false} ParseHexOfBytes(bs: seq<Byte>)
    ensures ParseHex(HexOfBytes(bs)) == bs
  {
    if bs != [] {
      var h := HexOfBytes(bs);
      assert h[2..] == HexOfBytes(bs[1..]);
      ParseHexOfBytes(bs[1..]);
    }
  }

  /** Different digests never render to the same hash. */
  lemma HexInjective(a: seq<Byte>, b: seq<Byte>)
    requires HexOfBytes(a) == HexOfBytes(b)
    ensures a == b
  {
    ParseHexOfBytes(a);
    ParseHexOfBytes(b);
  }

  /** `hashPassword(password)` */
  function HashPassword(digest: Digest, password: string): (h: string)
    ensures |h| == 2 * |digest(password)|
    ensures forall k :: 0 <= k < |h| ==> IsLowerHexDigit(h[k])
    ensures ParseHex(h) == digest(password)
  {
    ParseHexOfBytes(digest(password));
    HexOfBytes(digest(password))
  }

  /** `verifyPassword(password, hash)` */
  predicate VerifyPassword(digest: Digest, password: string, hash: string) {
    HashPassword(digest, password) == hash
  }

  /** A password verifies against a stored hash exactly when its digest equals the digest the hash was made from. */
  lemma VerifyMeansSameDigest(digest: Digest, password: string, stored: string)
    ensures VerifyPassword(digest, password, HashPassword(digest, stored)) <==> digest(password) == digest(stored)
  {
    if VerifyPassword(digest, password, HashPassword(digest, stored)) {
      HexInjective(digest(password), digest(stored));
    }
  }

  /** The answer of `login`. */
  datatype LoginResult = LoginResult(success: bool, token: Option<string>)

  /** `login(password)` at time `now`: only the first admin is checked; the token hashes the password followed by the time. */
  function Login(admins: seq<Admin>, digest: Digest, password: string, now: nat): (r: LoginResult)
    ensures admins == [] ==> !r.success && r.token == None
    ensures r.success <==> admins != [] && VerifyPassword(digest, password, admins[0].passwordHash)
    ensures r.token.Some? <==> r.success
    ensures r.success ==> r.token == Some(HashPassword(digest, password + Decimal(now)))
  {
    if |admins| == 0 then LoginResult(false, None)
    else if VerifyPassword(digest, password, admins[0].passwordHash) then
      LoginResult(true, Some(HashPassword(digest, password + Decimal(now))))
    else LoginResult(false, None)
  }

  /** A password just set up logs in. */
  lemma SetupThenLogin(digest: Digest, password: string, id: string, createdAt: int, now: nat)
    ensures Login([Admin(id, HashPassword(digest, password), createdAt)], digest, password, now).success
  {
  }

  /** After a change, the new password logs in, and the old one does only if its digest equals the new one's. */
  lemma LoginAfterChange(admins: seq<Admin>, digest: Digest, oldPassword: string, newPassword: string, now: nat)
    requires admins != []
    ensures var changed := admins[0 := admins[0].(passwordHash := HashPassword(digest, newPassword))];
      Login(changed, digest, newPassword, now).success
      && (Login(changed, digest, oldPassword, now).success <==> digest(oldPassword) == digest(newPassword))
  {
    VerifyMeansSameDigest(digest, oldPassword, newPassword);
  }

  /** The `admins` table. */
  class AdminStore {
    var admins: seq<Admin>

    constructor ()
      ensures admins == []
    {
      admins := [];
    }

    /** `checkAdminExists()` */
    function CheckAdminExists(): bool
      reads this
    {
      |admins| > 0
    }

    /** `setupAdmin(password)`: refuses when an admin exists, otherwise inserts the only admin. */
    method SetupAdmin(digest: Digest, password: string, now: int, freshId: string) returns (r: Result<bool>)
      modifies this
      ensures old(admins) != [] ==> r == Thrown(AdminExistsMessage) && admins == old(admins)
      ensures old(admins) == [] ==> r == Ok(true) && admins == [Admin(freshId, HashPassword(digest, password), now)]
    {
      if |admins| > 0 {
        return Thrown(AdminExistsMessage);
      }
      var passwordHash := HashPassword(digest, password);
      admins := admins + [Admin(freshId, passwordHash, now)];
      return Ok(true);
    }

    /** `changePassword(current, new)`: only the first admin's hash changes, and only when the current password verifies. */
    method ChangePassword(digest: Digest, currentPassword: string, newPassword: string) returns (r: Result<bool>)
      modifies this
      ensures old(admins) == [] ==> r == Thrown(NoAdminMessage) && admins == old(admins)
      ensures old(admins) != [] && !VerifyPassword(digest, currentPassword, old(admins)[0].passwordHash) ==>
        r == Thrown(WrongPasswordMessage) && admins == old(admins)
      ensures old(admins) != [] && VerifyPassword(digest, currentPassword, old(admins)[0].passwordHash) ==>
        r == Ok(true) && admins == old(admins)[0 := old(admins)[0].(passwordHash := HashPassword(digest, newPassword))]
    {
      if |admins| == 0 {
        return Thrown(NoAdminMessage);
      }
      var admin := admins[0];
      if !VerifyPassword(digest, currentPassword, admin.passwordHash) {
        return Thrown(WrongPasswordMessage);
      }
      admins := admins[0 := admin.(passwordHash := HashPassword(digest, newPassword))];
      return Ok(true);
    }
  }
}
