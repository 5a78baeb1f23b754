/**
 * The rows of the service's three tables and the constants that shape
 * generated secrets.
 */
module Records {
  import opened Wrappers
  import opened Strings

  /** Length of a user's generated API key. */
  const KEY_LEN: nat := 40
  /** Length of the random salt prefixed to a stored password. */
  const SALT_LEN: nat := 5

  predicate IsHexDigit(c: char) {
    ('0' <= c <= '9') || ('a' <= c <= 'f')
  }

  /** A SHA-1 hex digest: 40 lower-case hexadecimal characters. */
  type Digest = s: string | |s| == 40 && forall i :: 0 <= i < |s| ==> IsHexDigit(s[i])
    witness "0000000000000000000000000000000000000000"

  type Bytes = seq<bv8>

  /** A (latitude, longitude) pair in decimal degrees. */
  type Location = (real, real)

  /** `password` holds `salt + "|" + sha1(salt + plain password)`. */
  datatype User = User(
    id: nat,
    username: string,
    password: string,
    apiKey: string,
    isAdmin: bool,
    email: string)

  datatype Client = Client(
    id: nat,
    name: string,
    clientType: string,
    balance: real)

  datatype Ad = Ad(
    id: nat,
    name: string,
    clientId: nat,
    category: string,
    latitude: real,
    longitude: real,
    height: real,
    views: nat,
    clicks: nat,
    adType: string,
    data: Option<Bytes>)
  {
    function Position(): Location { (latitude, longitude) }
  }

  /** No digest contains the `|` that separates a stored salt from its hash. */
  lemma DigestHasNoBar(d: Digest)
    ensures '|' !in d
  {
  }

  /** A generated salt or key never contains the `|` separator. */
  lemma AlnumHasNoBar(s: string)
    requires IsAlnum(s)
    ensures '|' !in s
  {
  }
}
