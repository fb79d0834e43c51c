/**
 * The PagerDuty event that `sendPagerDutyAlert` posts, and the incident key
 * that correlates a trigger with its resolve. SHA-256 together with its
 * lower-case hex rendering (`%x`) is the parameter `hash`: the model only
 * relies on it being a function (and, for distinct keys, an injective one).
 */
module Incident {

  /** The part of the process configuration the event is built from. */
  datatype Config = Config(
    vaultAddress: string,
    vaultKey: string,
    pagerDutyKey: string,
    alertThreshold: int,
    version: string)

  /** The fields of `pagerDutyEvent` that are set (the others stay empty). */
  datatype Event = Event(
    serviceKey: string,
    eventType: string,
    incidentKey: string,
    description: string,
    client: string)

  const INCIDENT_KEY_PREFIX := "vault-rw-monitoring of "

  /** `generateIncidentKey`: the digest of the prefixed Vault address. */
  function IncidentKey(hash: string -> string, address: string): string
  {
    hash(INCIDENT_KEY_PREFIX + address)
  }

  /** One decimal digit. */
  function DigitChar(d: nat): (c: char)
    requires d < 10
    ensures '0' <= c <= '9' && c as int - '0' as int == d
  {
    "0123456789"[d]
  }

  /** The decimal digits of a natural number, most significant first, without leading zeros. */
  function DecimalDigits(n: nat): (s: string)
    ensures |s| > 0 && (s[0] == '0' ==> n == 0)
    ensures forall i :: 0 <= i < |s| ==> '0' <= s[i] <= '9'
    decreases n
  {
    if n < 10 then [DigitChar(n)] else DecimalDigits(n / 10) + [DigitChar(n % 10)]
  }

  /** Go's `%d` rendering of an int: a '-' in front of the digits of a negative number. */
  function Decimal(i: int): (s: string)
    ensures |s| > 0
    ensures s[0] == '-' <==> i < 0
    ensures forall k :: (if i < 0 then 1 else 0) <= k < |s| ==> '0' <= s[k] <= '9'
    // no leading zeros: the first digit is '0' only for zero itself
    ensures i < 0 ==> |s| > 1
    ensures s[if i < 0 then 1 else 0] == '0' ==> i == 0
    ensures i == 0 ==> s == "0"
  {
    if i < 0 then "-" + DecimalDigits(-i) else DecimalDigits(i)
  }

  /** The number a string of decimal digits denotes, most significant digit first. */
  function DigitsValue(s: string): int
    decreases |s|
  {
    if s == [] then 0 else 10 * DigitsValue(s[..|s| - 1]) + (s[|s| - 1] as int - '0' as int)
  }

  /** The number a `%d` rendering denotes: a leading '-' negates the digits after it. */
  function DecimalValue(s: string): int
  {
    if s != [] && s[0] == '-' then -DigitsValue(s[1..]) else DigitsValue(s)
  }

  lemma {:induction false} DecimalDigitsValue(n: nat)
    ensures DigitsValue(DecimalDigits(n)) == n
    decreases n
  {
    if n >= 10 {
      var s := DecimalDigits(n);
      assert s[..|s| - 1] == DecimalDigits(n / 10);
      DecimalDigitsValue(n / 10);
    }
  }

  /** The rendering of the threshold in the description reads back as the threshold. */
  lemma DecimalRoundTrip(i: int)
    ensures DecimalValue(Decimal(i)) == i
  {
    var n: nat := if i < 0 then -i else i;
    var digits := DecimalDigits(n);
    DecimalDigitsValue(n);
    if i < 0 {
      assert Decimal(i) == "-" + digits;
      assert ("-" + digits)[1..] == digits;
    } else {
      assert Decimal(i) == digits && digits[0] != '-';
    }
  }

  const DESCRIPTION_HEAD := "Vault instance at "
  const DESCRIPTION_MIDDLE := " failed "
  const DESCRIPTION_TAIL := " consecutive tests of the vault-rw-monitoring"

  /** The description line of an event. */
  function Description(cfg: Config): string
  {
    DESCRIPTION_HEAD + cfg.vaultAddress + DESCRIPTION_MIDDLE + Decimal(cfg.alertThreshold) + DESCRIPTION_TAIL
  }

  /** The description names the Vault address, and its number reads back as the alert threshold. */
  lemma DescriptionNamesTargetAndThreshold(cfg: Config)
    ensures var d := Description(cfg);
            var addressEnd := |DESCRIPTION_HEAD| + |cfg.vaultAddress|;
            var numberStart := addressEnd + |DESCRIPTION_MIDDLE|;
            var numberEnd := |d| - |DESCRIPTION_TAIL|;
            && numberStart < numberEnd <= |d|
            && d[..|DESCRIPTION_HEAD|] == DESCRIPTION_HEAD
            && d[|DESCRIPTION_HEAD|..addressEnd] == cfg.vaultAddress
            && d[addressEnd..numberStart] == DESCRIPTION_MIDDLE
            && d[numberEnd..] == DESCRIPTION_TAIL
            && d[numberStart..numberEnd] == Decimal(cfg.alertThreshold)
            && DecimalValue(d[numberStart..numberEnd]) == cfg.alertThreshold
  {
    var d := Description(cfg);
    var number := Decimal(cfg.alertThreshold);
    var numberStart := |DESCRIPTION_HEAD| + |cfg.vaultAddress| + |DESCRIPTION_MIDDLE|;
    assert d[numberStart..|d| - |DESCRIPTION_TAIL|] == number;
    assert d[|DESCRIPTION_HEAD|..|DESCRIPTION_HEAD| + |cfg.vaultAddress|] == cfg.vaultAddress;
    DecimalRoundTrip(cfg.alertThreshold);
  }

  /**
   * The event posted for a trigger (`trigger == true`) or a resolve. The
   * event is built as a trigger and its kind then overwritten for a resolve.
   */
  function MakeEvent(cfg: Config, hash: string -> string, trigger: bool): (e: Event)
    ensures e.eventType == (if trigger then "trigger" else "resolve")
    ensures e.serviceKey == cfg.pagerDutyKey
    ensures e.client == "vault-rw-monitoring " + cfg.version
    ensures e.incidentKey == IncidentKey(hash, cfg.vaultAddress)
    ensures e.description == Description(cfg)
  {
    var e := Event(cfg.pagerDutyKey, "trigger", IncidentKey(hash, cfg.vaultAddress),
                   Description(cfg), "vault-rw-monitoring " + cfg.version);
    if trigger then e else e.(eventType := "resolve")
  }

  /**
   * A trigger and a resolve differ in their kind only; in particular they
   * carry the same incident key, and that key is a function of the Vault
   * address alone: two configurations with the same address give the same key.
   */
  lemma TriggerAndResolveShareKey(c1: Config, c2: Config, hash: string -> string)
    requires c1.vaultAddress == c2.vaultAddress
    ensures MakeEvent(c1, hash, true).(eventType := "resolve") == MakeEvent(c1, hash, false)
    ensures MakeEvent(c1, hash, true).incidentKey == MakeEvent(c2, hash, false).incidentKey
    ensures MakeEvent(c1, hash, true).incidentKey == IncidentKey(hash, c1.vaultAddress)
  {
  }

  /** With a collision-free digest, different Vault addresses get different incident keys. */
  lemma DistinctAddressesDistinctKeys(hash: string -> string, a1: string, a2: string)
    requires forall x, y :: hash(x) == hash(y) ==> x == y
    requires a1 != a2
    ensures IncidentKey(hash, a1) != IncidentKey(hash, a2)
  {
    var p := INCIDENT_KEY_PREFIX;
    assert (p + a1)[|p|..] == a1;
    assert (p + a2)[|p|..] == a2;
  }
}
