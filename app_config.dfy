// The configuration of the SQL generation (backend/app/config.py). AppConfig is a
// pydantic model whose fields each have an upper-case alias; the stored configuration
// is kept as the field values by field name. `copy(update=...)` does not validate, so
// a field holds whatever JSON value an update supplied.
module AppSettings {
  import opened Common

  /** The fields of AppConfig in declaration order, each with its alias. */
  const Fields: seq<(string, string)> := [
    ("telegram_bot_token", "TELEGRAM_BOT_TOKEN"),
    ("telegram_chat_id", "TELEGRAM_CHAT_ID"),
    ("container_filter", "CONTAINER_FILTER"),
    ("mention_user_ids", "MENTION_USER_IDS"),
    ("mention_name", "MENTION_NAME"),
    ("check_interval_minutes", "CHECK_INTERVAL_MINUTES"),
    ("retry_delay_minutes", "RETRY_DELAY_MINUTES")]

  /** The zone every check of this generation reports in, whatever is stored. */
  const Timezone: string := "Etc/GMT+3"

  function FieldNames(): set<string> {
    {"telegram_bot_token", "telegram_chat_id", "container_filter", "mention_user_ids", "mention_name",
     "check_interval_minutes", "retry_delay_minutes"}
  }

  /** The names of Fields are FieldNames, and no two fields share a name. */
  lemma FieldNamesListed()
    ensures forall k | 0 <= k < |Fields| :: Fields[k].0 in FieldNames()
    ensures forall name | name in FieldNames() :: exists k | 0 <= k < |Fields| :: Fields[k].0 == name
    ensures forall i, j | 0 <= i < j < |Fields| :: Fields[i].0 != Fields[j].0
  {
    assert Fields[0].0 == "telegram_bot_token" && Fields[1].0 == "telegram_chat_id" && Fields[2].0 == "container_filter";
    assert Fields[3].0 == "mention_user_ids" && Fields[4].0 == "mention_name";
    assert Fields[5].0 == "check_interval_minutes" && Fields[6].0 == "retry_delay_minutes";
  }

  /** `AppConfig()`: the field defaults. */
  function Defaults(): (r: Record)
    ensures r.Keys == FieldNames()
    ensures "telegram_bot_token" in r && r["telegram_bot_token"] == Str("")
    ensures "telegram_chat_id" in r && r["telegram_chat_id"] == Str("")
    ensures "check_interval_minutes" in r && r["check_interval_minutes"] == Int(10)
    ensures "retry_delay_minutes" in r && r["retry_delay_minutes"] == Int(5)
  {
    map[
      "telegram_bot_token" := Str(""),
      "telegram_chat_id" := Str(""),
      "container_filter" := Str("frigate"),
      "mention_user_ids" := Str(""),
      "mention_name" := Str(""),
      "check_interval_minutes" := Int(10),
      "retry_delay_minutes" := Int(5)]
  }

  /** The `normalized` dict update builds from the payload over `fields`. */
  function Normalized(fields: seq<(string, string)>, payload: Record): Record {
    if fields == [] then map[]
    else
      var prior := Normalized(fields[..|fields| - 1], payload);
      var (name, alias) := fields[|fields| - 1];
      if alias in payload && payload[alias] != Null then prior[name := payload[alias]]
      else if name in payload && payload[name] != Null then prior[name := payload[name]]
      else prior
  }

  /**
   * For each field of `fields` (names distinct): a non-None value under the alias is
   * taken, else a non-None value under the field name, else the field is left out;
   * nothing but field names becomes a key.
   */
  lemma {:induction false} NormalizedPicks(fields: seq<(string, string)>, payload: Record, k: nat)
    requires k < |fields|
    requires forall i, j | 0 <= i < j < |fields| :: fields[i].0 != fields[j].0
    ensures var (name, alias) := fields[k];
      var n := Normalized(fields, payload);
      && (alias in payload && payload[alias] != Null ==> name in n && n[name] == payload[alias])
      && (!(alias in payload && payload[alias] != Null) && name in payload && payload[name] != Null ==>
            name in n && n[name] == payload[name])
      && (!(alias in payload && payload[alias] != Null) && !(name in payload && payload[name] != Null) ==> name !in n)
  {
    var m := |fields| - 1;
    if k < m {
      NormalizedPicks(fields[..m], payload, k);
      assert fields[..m][k] == fields[k];
    } else {
      NormalizedFresh(fields[..m], payload, fields[k].0);
    }
  }

  lemma {:induction false} NormalizedFresh(fields: seq<(string, string)>, payload: Record, name: string)
    requires forall i | 0 <= i < |fields| :: fields[i].0 != name
    ensures name !in Normalized(fields, payload)
  {
    if fields != [] {
      NormalizedFresh(fields[..|fields| - 1], payload, name);
    }
  }

  /** Only field names become keys: unknown payload keys are ignored. */
  lemma {:induction false} NormalizedKeys(fields: seq<(string, string)>, payload: Record)
    ensures forall key | key in Normalized(fields, payload) :: exists i | 0 <= i < |fields| :: fields[i].0 == key
  {
    if fields != [] {
      var m := |fields| - 1;
      NormalizedKeys(fields[..m], payload);
      forall key | key in Normalized(fields, payload) ensures exists i | 0 <= i < |fields| :: fields[i].0 == key {
        if key != fields[m].0 {
          assert key in Normalized(fields[..m], payload);
          var i :| 0 <= i < m && fields[..m][i].0 == key;
          assert fields[i].0 == key;
        }
      }
    }
  }

  /** The configuration manager: the configuration held in memory and on disk. */
  class ConfigManager {
    var config: Record

    /**
     * Opens the store. A missing file is written with AppConfig() and read back;
     * otherwise `existing` is what parse_obj made of the file.
     */
    constructor(existing: Option<Record>)
      ensures config == if existing.Some? then existing.value else Defaults()
    {
      config := if existing.Some? then existing.value else Defaults();
    }

    /** get: the configuration currently held. */
    function Get(): Record
      reads this
    {
      config
    }

    /**
     * update: each field takes the payload's non-None value under its alias, else
     * under its name; every other field keeps its value. The new configuration is
     * held, written and returned.
     */
    method Update(payload: Record) returns (r: Record)
      modifies this
      ensures config == old(config) + Normalized(Fields, payload)
      ensures r == config && Get() == r
    {
      var normalized: Record := map[];
      for i := 0 to |Fields|
        invariant normalized == Normalized(Fields[..i], payload)
      {
        assert Fields[..i + 1][..i] == Fields[..i];
        var (name, alias) := Fields[i];
        if alias in payload && payload[alias] != Null {
          normalized := normalized[name := payload[alias]];
        } else if name in payload && payload[name] != Null {
          normalized := normalized[name := payload[name]];
        }
      }
      Whole(Fields);
      config := config + normalized;
      r := config;
    }
  }

  /**
   * After update(payload) a field holds the alias value when it is given and not
   * None, else the field-name value when given and not None, else its old value; the
   * set of keys is unchanged when it was the set of fields.
   */
  lemma UpdateField(before: Record, payload: Record, k: nat)
    requires k < |Fields|
    ensures var (name, alias) := Fields[k];
      var after := before + Normalized(Fields, payload);
      && (alias in payload && payload[alias] != Null ==> name in after && after[name] == payload[alias])
      && (!(alias in payload && payload[alias] != Null) && name in payload && payload[name] != Null ==>
            name in after && after[name] == payload[name])
      && (!(alias in payload && payload[alias] != Null) && !(name in payload && payload[name] != Null) && name in before ==>
            name in after && after[name] == before[name])
    ensures before.Keys == FieldNames() ==> (before + Normalized(Fields, payload)).Keys == FieldNames()
  {
    FieldNamesListed();
    NormalizedPicks(Fields, payload, k);
    NormalizedKeys(Fields, payload);
  }
}
