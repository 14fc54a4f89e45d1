/** The settings table (store/settings.go) and the signing key kept in it (seatkeyd/main.go). */
module Settings {
  import opened Common
  import Base64
  import opened Crypto

  type Values = map<string, string>

  const SEED_KEY := "signing_key_seed"
  const WEBHOOK_URL := "webhook_url"
  const WEBHOOK_SECRET := "webhook_secret"

  type Keypair = (seq<byte>, seq<byte>)

  /** What start-up leaves in the settings, and the keypair it serves with. */
  function Boot(c: Primitives, v: Values, drawn: seq<byte>): (Values, Result<Keypair, CryptoError>) {
    var v' := if SEED_KEY in v then v else v[SEED_KEY := Base64.Encode(drawn)];
    (v', KeypairFromSeed(c, v'[SEED_KEY]))
  }

  /** The dashboard's webhook form. */
  function SetWebhook(v: Values, url: string, secret: string): Values {
    v[WEBHOOK_URL := url][WEBHOOK_SECRET := secret]
  }

  class SettingsTable {
    var values: Values

    constructor ()
      ensures values == map[]
    {
      values := map[];
    }

    method GetSetting(key: string) returns (value: string, found: bool)
      ensures found == (key in values) && value == if key in values then values[key] else ""
    {
      found := key in values;
      value := if found then values[key] else "";
    }

    method SetSetting(key: string, value: string)
      modifies this
      ensures values == old(values)[key := value]
    {
      values := values[key := value];
    }

    /** drawn is the random seed drawn when none is stored. */
    method LoadOrCreateKeypair(c: Primitives, drawn: seq<byte>) returns (r: Result<Keypair, CryptoError>)
      modifies this
      ensures (values, r) == Boot(c, old(values), drawn)
    {
      var seed, ok := GetSetting(SEED_KEY);
      if !ok {
        seed := Base64.Encode(drawn);
        SetSetting(SEED_KEY, seed);
      }
      r := KeypairFromSeed(c, seed);
    }

    method HandleWebhookSettings(url: string, secret: string)
      modifies this
      ensures values == SetWebhook(old(values), url, secret)
    {
      SetSetting(WEBHOOK_URL, url);
      SetSetting(WEBHOOK_SECRET, secret);
    }
  }

  lemma SettingNamesDiffer()
    ensures SEED_KEY != WEBHOOK_URL && SEED_KEY != WEBHOOK_SECRET && WEBHOOK_URL != WEBHOOK_SECRET
  {
    assert |SEED_KEY| == 16 && |WEBHOOK_URL| == 11 && |WEBHOOK_SECRET| == 14;
  }

  /** Each value goes under its own name, and neither touches the signing seed or any other setting. */
  lemma WebhookStored(v: Values, url: string, secret: string)
    ensures var v' := SetWebhook(v, url, secret);
      && "webhook_url" in v' && v'["webhook_url"] == url
      && "webhook_secret" in v' && v'["webhook_secret"] == secret
      && forall k :: k != "webhook_url" && k != "webhook_secret" ==>
           (k in v' <==> k in v) && (k in v ==> v'[k] == v[k])
  {
    SettingNamesDiffer();
    hide SEED_KEY;
  }

  /** A server starts on the stored seed if that has 32 bytes, and else, if none is stored, on the one
      drawn, which is then stored; a stored text that is no seed is left alone and the start fails. */
  lemma BootsOn(c: Primitives, v: Values, raw: seq<byte>, drawn: seq<byte>)
    ensures |drawn| == 32 && "signing_key_seed" !in v ==>
      Boot(c, v, drawn) == (v["signing_key_seed" := Base64.Encode(drawn)], Ok((drawn, c.publicKey(drawn))))
    ensures |raw| == 32 && "signing_key_seed" in v && Base64.Decode(v["signing_key_seed"]) == Some(raw) ==>
      Boot(c, v, drawn) == (v, Ok((raw, c.publicKey(raw))))
    ensures "signing_key_seed" in v && (Base64.Decode(v["signing_key_seed"]).None? || |Base64.Decode(v["signing_key_seed"]).value| != 32) ==>
      Boot(c, v, drawn).0 == v && Boot(c, v, drawn).1.Err?
  {
    KeysRoundTrip(c, drawn);
    hide Base64.Encode, Base64.Decode;
  }
}
