/** Exporter configuration and its validation: exporter/awskinesisexporter/config.go. */
module Config {
  import opened Sequences

  const RANDOM := "random"
  const TAG_HASH := "tag_hash"
  const XXHASH := "xxhash"
  const RESOURCE := "resource"
  const DATAPOINT := "datapoint"
  const METRIC_NAME := "metric_name"
  const SPLIT_HALF := "split_half"
  const TRUNCATE := "truncate_attribute_values"
  const REJECT := "reject"

  datatype KeySource = KeySource(source: string, name: string, regex: string, promote: string)

  datatype Config = Config(
    streamName: string,
    region: string,
    encodingKnown: bool,
    compressionKnown: bool,
    maxRecordSize: int,
    maxRecords: int,
    maxBytes: int,
    strategy: string,
    tags: seq<string>,
    keys: seq<KeySource>,
    hash: string,
    legacyPolicy: Option<string>,
    policies: seq<string>,
    maxAttempts: int,
    maxAttributeValueBytes: int)
  {
    predicate TagHash() { strategy == TAG_HASH }

    /** The byte length of every partition key: 16 hex digits, or a UUID. */
    function KeyOverhead(): nat {
      if TagHash() then 16 else 36
    }
  }

  function Source(ks: KeySource): string {
    if ks.source == "" then RESOURCE else ks.source
  }

  predicate KeyUsable(ks: KeySource, compiles: string -> bool) {
    && Source(ks) in {RESOURCE, DATAPOINT, METRIC_NAME}
    && (ks.name == "" <==> Source(ks) == METRIC_NAME)
    && (ks.regex != "" ==> compiles(ks.regex))
  }

  predicate AllUsable(keys: seq<KeySource>, compiles: string -> bool) {
    forall i :: 0 <= i < |keys| ==> KeyUsable(keys[i], compiles)
  }

  predicate Terminal(policy: string) {
    policy == SPLIT_HALF || policy == REJECT
  }

  /** What a configuration has to satisfy to be served. */
  ghost predicate Servable(c: Config, compiles: string -> bool) {
    && c.streamName != "" && c.region != "" && c.encodingKnown && c.compressionKnown
    && c.KeyOverhead() < c.maxRecordSize <= c.maxBytes
    && 1 <= c.maxRecords <= 500
    && c.strategy in {"", RANDOM, TAG_HASH}
    && (c.TagHash() ==> (c.tags == [] <==> c.keys != []))
    && (c.TagHash() ==> AllUsable(c.keys, compiles))
    && c.hash in {"", XXHASH}
    && c.legacyPolicy.None?
    && c.policies != []
    && (forall i :: 0 <= i < |c.policies| ==> c.policies[i] == TRUNCATE || Terminal(c.policies[i]))
    && (forall i :: 0 <= i < |c.policies| - 1 ==> !Terminal(c.policies[i]))
    && c.maxAttempts > 0 && c.maxAttributeValueBytes > 0
  }

  /** The first complaint, or none; a validated configuration is exactly a servable one. */
  method Validate(c: Config, compiles: string -> bool) returns (error: Option<string>)
    ensures error.None? <==> Servable(c, compiles)
  {
    if c.streamName == "" {
      return Some("stream_name is required");
    }
    if c.region == "" {
      return Some("region is required");
    }
    if !c.encodingKnown {
      return Some("encoding");
    }
    if !c.compressionKnown {
      return Some("compression");
    }
    if c.maxRecordSize <= 0 {
      return Some("max_record_size must be positive");
    }
    if c.maxRecordSize <= c.KeyOverhead() {
      return Some("max_record_size must exceed the partition-key overhead");
    }
    if c.maxRecords <= 0 {
      return Some("put_records.max_records must be positive");
    }
    if c.maxRecords > 500 {
      return Some("put_records.max_records must not exceed 500");
    }
    if c.maxBytes <= 0 {
      return Some("put_records.max_bytes must be positive");
    }
    if c.maxRecordSize > c.maxBytes {
      return Some("max_record_size must not exceed put_records.max_bytes");
    }
    if c.strategy == TAG_HASH {
      var bad := ValidateKeys(c, compiles);
      if bad.Some? {
        return bad;
      }
    } else if c.strategy != "" && c.strategy != RANDOM {
      return Some("unknown partition_key.strategy");
    }
    if c.hash != "" && c.hash != XXHASH {
      return Some("unknown partition_key.hash");
    }
    if c.legacyPolicy.Some? {
      return Some("oversize.policy is removed");
    }
    if |c.policies| == 0 {
      return Some("oversize.policies must contain at least one policy");
    }
    for i := 0 to |c.policies|
      invariant forall k :: 0 <= k < i ==> c.policies[k] == TRUNCATE || Terminal(c.policies[k])
      invariant forall k :: 0 <= k < i && k < |c.policies| - 1 ==> !Terminal(c.policies[k])
    {
      if Terminal(c.policies[i]) {
        if i != |c.policies| - 1 {
          return Some("policies listed after a terminal one would never run");
        }
      } else if c.policies[i] != TRUNCATE {
        return Some("unknown oversize.policies entry");
      }
    }
    if c.maxAttempts <= 0 {
      return Some("oversize.max_attempts must be positive");
    }
    if c.maxAttributeValueBytes <= 0 {
      return Some("oversize.max_attribute_value_bytes must be positive");
    }
    return None;
  }

  method ValidateKeys(c: Config, compiles: string -> bool) returns (error: Option<string>)
    ensures error.None? <==> ((c.tags == [] <==> c.keys != []) && AllUsable(c.keys, compiles))
  {
    if |c.tags| > 0 && |c.keys| > 0 {
      return Some("partition_key.tags and partition_key.keys are mutually exclusive");
    }
    if |c.tags| == 0 && |c.keys| == 0 {
      return Some("partition_key.tags or partition_key.keys is required");
    }
    for i := 0 to |c.keys|
      invariant forall k :: 0 <= k < i ==> KeyUsable(c.keys[k], compiles)
    {
      var src := Source(c.keys[i]);
      if src == RESOURCE || src == DATAPOINT {
        if c.keys[i].name == "" {
          return Some("name is required");
        }
      } else if src == METRIC_NAME {
        if c.keys[i].name != "" {
          return Some("name must be empty");
        }
      } else {
        return Some("unknown source");
      }
      if c.keys[i].regex != "" && !compiles(c.keys[i].regex) {
        return Some("invalid regex");
      }
    }
    return None;
  }
}
