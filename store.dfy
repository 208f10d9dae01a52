/**
 * The credential store of server/db.ts: one table of client records keyed by
 * `clientId`. The DynamoDB document client is replaced by an in-memory map.
 */
module Store {
  import opened Json

  /**
   * A client (account) record. `accessToken` is the secret a device presents
   * when it connects; the three oauth fields hold the tokens for the upstream
   * event gateway and may be absent. `tokenExpires` is an instant in whole
   * seconds (the source stores it as an ISO-8601 string).
   */
  datatype Client = Client(
    clientId: string,
    accessToken: string,
    oauthAccessToken: Option<string>,
    oauthRefreshToken: Option<string>,
    tokenExpires: Option<int>)

  type Table = map<string, Client>

  /** Every record is stored under its own `clientId`, as DynamoDB keys items. */
  ghost predicate Keyed(t: Table)
  {
    forall id :: id in t ==> t[id].clientId == id
  }

  /** `getClient`: the stored item, or `null` when there is none. */
  function GetClient(t: Table, clientId: string): (r: Option<Client>)
    ensures r.None? <==> clientId !in t
    ensures r.Some? ==> r.value == t[clientId]
  {
    if clientId in t then Some(t[clientId]) else None
  }

  /**
   * `getClientAndVerify`: the client when its stored access token equals the
   * presented one, otherwise `null`. The source reads `client.accessToken`
   * without checking for `null`, so an unknown client id makes the call fail
   * with a TypeError instead of answering `null`.
   */
  function GetClientAndVerify(t: Table, clientId: string, accessToken: string): (r: Result<Option<Client>>)
    ensures r == Err(TypeError) <==> clientId !in t
    ensures r.Ok? ==> (r.value.Some? <==> t[clientId].accessToken == accessToken)
    ensures r.Ok? && r.value.Some? ==> r.value.value == t[clientId]
    ensures r.Err? ==> r.fault == TypeError
  {
    match GetClient(t, clientId)
    case None => Err(TypeError)
    case Some(client) => if client.accessToken == accessToken then Ok(Some(client)) else Ok(None)
  }

  /** The table after `addClient(c)`: the whole record, replacing any previous one. */
  function PutClient(t: Table, c: Client): (r: Table)
    ensures r.Keys == t.Keys + {c.clientId} && r[c.clientId] == c
    ensures forall k :: k in t && k != c.clientId ==> r[k] == t[k]
  {
    t[c.clientId := c]
  }

  /**
   * The table after `updateClientOauthAccessToken(c)`: the three oauth
   * attributes of the item keyed by `c.clientId` are set from `c`.
   */
  function SetOauthTokens(t: Table, c: Client): (r: Table)
    ensures r.Keys == t.Keys
    ensures forall k :: k in t && k != c.clientId ==> r[k] == t[k]
  {
    if c.clientId in t then
      t[c.clientId := t[c.clientId].(
        oauthAccessToken := c.oauthAccessToken,
        oauthRefreshToken := c.oauthRefreshToken,
        tokenExpires := c.tokenExpires)]
    else t
  }

  lemma PutClientThenGet(t: Table, c: Client, other: string)
    ensures GetClient(PutClient(t, c), c.clientId) == Some(c)
    ensures other != c.clientId ==> GetClient(PutClient(t, c), other) == GetClient(t, other)
    ensures Keyed(t) ==> Keyed(PutClient(t, c))
  {
  }

  /** An oauth update touches only the oauth attributes of the one keyed record. */
  lemma SetOauthTokensKeepsIdentity(t: Table, c: Client, other: string)
    requires c.clientId in t
    ensures c.clientId in SetOauthTokens(t, c)
    ensures SetOauthTokens(t, c)[c.clientId].clientId == t[c.clientId].clientId
    ensures SetOauthTokens(t, c)[c.clientId].accessToken == t[c.clientId].accessToken
    ensures SetOauthTokens(t, c)[c.clientId].oauthAccessToken == c.oauthAccessToken
    ensures SetOauthTokens(t, c)[c.clientId].oauthRefreshToken == c.oauthRefreshToken
    ensures SetOauthTokens(t, c)[c.clientId].tokenExpires == c.tokenExpires
    ensures other != c.clientId ==> GetClient(SetOauthTokens(t, c), other) == GetClient(t, other)
    ensures SetOauthTokens(t, c).Keys == t.Keys
  {
  }

  /** Device credentials survive an oauth update: a token that verified before still verifies. */
  lemma VerifySurvivesOauthUpdate(t: Table, c: Client, id: string, token: string)
    ensures GetClientAndVerify(SetOauthTokens(t, c), id, token).Ok? == GetClientAndVerify(t, id, token).Ok?
    ensures GetClientAndVerify(SetOauthTokens(t, c), id, token).Ok? ==>
      (GetClientAndVerify(SetOauthTokens(t, c), id, token).value.Some? <==>
       GetClientAndVerify(t, id, token).value.Some?)
  {
  }

  newtype byte = x: int | 0 <= x < 256

  predicate IsLowerHex(c: char)
  {
    '0' <= c <= '9' || 'a' <= c <= 'f'
  }

  /** The lowercase hex digit of a nibble. */
  function HexDigit(k: nat): (c: char)
    requires k < 16
    ensures IsLowerHex(c)
  {
    if k < 10 then ('0' as int + k) as char else ('a' as int + k - 10) as char
  }

  function HexValue(c: char): (v: nat)
    requires IsLowerHex(c)
    ensures v < 16 && HexDigit(v) == c
  {
    if c <= '9' then (c as int - '0' as int) else (c as int - 'a' as int) + 10
  }

  /** `Buffer.toString('hex')`: two lowercase digits per byte, high nibble first. */
  function ToHex(bytes: seq<byte>): (r: string)
    ensures |r| == 2 * |bytes|
    ensures forall i :: 0 <= i < |r| ==> IsLowerHex(r[i])
  {
    if bytes == [] then ""
    else [HexDigit(bytes[0] as int / 16), HexDigit(bytes[0] as int % 16)] + ToHex(bytes[1..])
  }

  /** Decoding of lowercase hex, the inverse of ToHex. */
  function FromHex(s: string): seq<byte>
    requires |s| % 2 == 0
    requires forall i :: 0 <= i < |s| ==> IsLowerHex(s[i])
  {
    if s == [] then []
    else [(HexValue(s[0]) * 16 + HexValue(s[1])) as byte] + FromHex(s[2..])
  }

  lemma HexValueOfDigit(k: nat)
    requires k < 16
    ensures HexValue(HexDigit(k)) == k
  {
  }

  /** Hex encoding loses nothing: the token determines the random bytes it came from. */
  lemma {:induction false} HexRoundTrip(bytes: seq<byte>)
    ensures FromHex(ToHex(bytes)) == bytes
  {
    if bytes != [] {
      var b := bytes[0] as int;
      var s := ToHex(bytes);
      assert s[2..] == ToHex(bytes[1..]);
      HexValueOfDigit(b / 16);
      HexValueOfDigit(b % 16);
      assert (HexValue(s[0]) * 16 + HexValue(s[1])) == b;
      HexRoundTrip(bytes[1..]);
    }
  }

  /**
   * `generateRandomAccessToken`: the hex of 32 random bytes. The bytes come
   * from `crypto.randomBytes(32)` and are a parameter here.
   */
  function GenerateRandomAccessToken(random: seq<byte>): (token: string)
    requires |random| == 32
    ensures |token| == 64
    ensures forall i :: 0 <= i < |token| ==> IsLowerHex(token[i])
    ensures FromHex(token) == random
  {
    HexRoundTrip(random);
    ToHex(random)
  }

  /** The DynamoDB table `alexa-iot-clients`, held in memory. */
  class Db {
    var table: Table

    constructor ()
      ensures table == map[]
    {
      table := map[];
    }

    /** `addClient`: stores the whole record and hands it back. */
    method AddClient(client: Client) returns (stored: Client)
      modifies this
      ensures table == PutClient(old(table), client)
      ensures stored == client
    {
      table := PutClient(table, client);
      stored := client;
    }

    /** `updateClientOauthAccessToken`: rewrites the three oauth attributes only. */
    method UpdateClientOauthAccessToken(client: Client)
      modifies this
      ensures table == SetOauthTokens(old(table), client)
    {
      table := SetOauthTokens(table, client);
    }
  }
}
