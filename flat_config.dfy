// The configuration store of the flat-file generation (backend/app/config_manager.py).
// The JSON file holds a settings dict and a list of host dicts; they are the two
// fields of ConfigManager. A file without "settings" or "hosts" reads as {} or [] in
// every method, so the model starts from those.
module FlatConfig {
  import opened Common
  import opened Models

  /**
   * The Telegram identity the default configuration is seeded with. The deployment's
   * own values are not part of the model; they come in as a parameter.
   */
  datatype Identity = Identity(botToken: string, chatId: string, mentionUserIds: seq<string>, mentionName: string)

  function Strs(ids: seq<string>): (r: seq<Value>)
    ensures |r| == |ids| && forall k | 0 <= k < |ids| :: r[k] == Str(ids[k])
  {
    if ids == [] then [] else Strs(ids[..|ids| - 1]) + [Str(ids[|ids| - 1])]
  }

  /** The settings of DEFAULT_CONFIG. */
  function DefaultSettings(identity: Identity): (s: Record)
    ensures s.Keys == {"telegram_bot_token", "telegram_chat_id", "container_filter", "mention_user_ids",
                       "mention_name", "check_interval_minutes", "timezone"}
    ensures s["check_interval_minutes"] == Int(10)
    ensures s["timezone"] == Str("America/Sao_Paulo")
    ensures s["container_filter"] == Str("frigate")
  {
    map[
      "telegram_bot_token" := Str(identity.botToken),
      "telegram_chat_id" := Str(identity.chatId),
      "container_filter" := Str("frigate"),
      "mention_user_ids" := List(Strs(identity.mentionUserIds)),
      "mention_name" := Str(identity.mentionName),
      "check_interval_minutes" := Int(10),
      "timezone" := Str("America/Sao_Paulo")]
  }

  /** `{**a, **b}` and `a.update(b)`: every key of either, the value of `b` where both have it. */
  function Merge(a: Record, b: Record): (r: Record)
    ensures forall k :: k in r <==> k in a || k in b
    ensures forall k | k in b :: r[k] == b[k]
    ensures forall k | k in a && k !in b :: r[k] == a[k]
  {
    a + b
  }

  /** `host.get("id") == host_id`. */
  predicate HasId(host: Record, hostId: string) {
    Get(host, "id") == Str(hostId)
  }

  /** The index of the first host with the id, if any. */
  function FirstMatch(hosts: seq<Record>, hostId: string): (r: Option<nat>)
    ensures r.Some? ==> r.value < |hosts| && HasId(hosts[r.value], hostId)
    ensures r.Some? ==> forall k | 0 <= k < r.value :: !HasId(hosts[k], hostId)
    ensures r.None? <==> forall k | 0 <= k < |hosts| :: !HasId(hosts[k], hostId)
  {
    if hosts == [] then None
    else if HasId(hosts[0], hostId) then Some(0)
    else
      var rest := FirstMatch(hosts[1..], hostId);
      if rest.None? then None
      else
        assert forall k | 1 <= k < |hosts| :: hosts[k] == hosts[1..][k - 1];
        Some(rest.value + 1)
  }

  /** `[host for host in hosts if host.get("id") != host_id]`. */
  function Without(hosts: seq<Record>, hostId: string): seq<Record> {
    if hosts == [] then []
    else
      var prior := Without(hosts[..|hosts| - 1], hostId);
      if HasId(hosts[|hosts| - 1], hostId) then prior else prior + [hosts[|hosts| - 1]]
  }

  /** Filtering a concatenation filters each part: the survivors keep their relative order. */
  lemma {:induction false} WithoutAppend(a: seq<Record>, b: seq<Record>, hostId: string)
    ensures Without(a + b, hostId) == Without(a, hostId) + Without(b, hostId)
    decreases |b|
  {
    if b == [] {
      assert a + b == a;
    } else {
      var n := |b| - 1;
      assert (a + b)[..|a + b| - 1] == a + b[..n];
      WithoutAppend(a, b[..n], hostId);
    }
  }

  /**
   * delete_host removes every host with the id and keeps every other host, as often as
   * it occurred.
   */
  lemma {:induction false} WithoutRemovesExactly(hosts: seq<Record>, hostId: string)
    ensures forall h | h in Without(hosts, hostId) :: !HasId(h, hostId)
    ensures forall h | !HasId(h, hostId) :: multiset(Without(hosts, hostId))[h] == multiset(hosts)[h]
    ensures |Without(hosts, hostId)| == |hosts| - CountWhere(hosts, (h: Record) => HasId(h, hostId))
  {
    if hosts != [] {
      var n := |hosts| - 1;
      WithoutRemovesExactly(hosts[..n], hostId);
      assert hosts == hosts[..n] + [hosts[n]];
    }
  }

  /** delete_host of an id no host has changes nothing. */
  lemma {:induction false} WithoutAbsent(hosts: seq<Record>, hostId: string)
    requires forall k | 0 <= k < |hosts| :: !HasId(hosts[k], hostId)
    ensures Without(hosts, hostId) == hosts
  {
    if hosts != [] {
      var n := |hosts| - 1;
      WithoutAbsent(hosts[..n], hostId);
      assert hosts == hosts[..n] + [hosts[n]];
    }
  }

  /** The text of str(KeyError(f"Host {host_id} not found")). */
  function HostNotFound(hostId: string): string {
    "'Host " + hostId + " not found'"
  }

  class ConfigManager {
    var settings: Record
    var hosts: seq<Record>

    /** Opens the store; a missing file is written as DEFAULT_CONFIG: default settings, no hosts. */
    constructor(existing: Option<(Record, seq<Record>)>, identity: Identity)
      ensures existing.Some? ==> settings == existing.value.0 && hosts == existing.value.1
      ensures existing.None? ==> settings == DefaultSettings(identity) && hosts == []
    {
      if existing.Some? {
        settings := existing.value.0;
        hosts := existing.value.1;
      } else {
        settings := DefaultSettings(identity);
        hosts := [];
      }
    }

    /** get_hosts: a copy of the host list. */
    function GetHosts(): seq<Record>
      reads this
    {
      hosts
    }

    /** update_settings: the payload's keys overwrite, every other setting stays. */
    method UpdateSettings(newSettings: Record) returns (r: Record)
      modifies this
      ensures settings == Merge(old(settings), newSettings)
      ensures r == settings && hosts == old(hosts)
    {
      settings := Merge(settings, newSettings);
      r := settings;
    }

    /**
     * update_host: the first host with the id becomes `{**host, **payload}` and is
     * returned; no match raises KeyError and writes nothing.
     */
    method UpdateHost(hostId: string, payload: Record) returns (r: Result<Record>)
      modifies this
      ensures settings == old(settings)
      ensures FirstMatch(old(hosts), hostId).None? ==> r == Raised(HostNotFound(hostId)) && hosts == old(hosts)
      ensures FirstMatch(old(hosts), hostId).Some? ==>
        var i := FirstMatch(old(hosts), hostId).value;
        r == Ok(Merge(old(hosts)[i], payload)) && hosts == old(hosts)[i := Merge(old(hosts)[i], payload)]
    {
      for idx := 0 to |hosts|
        invariant hosts == old(hosts)
        invariant forall k | 0 <= k < idx :: !HasId(hosts[k], hostId)
      {
        if HasId(hosts[idx], hostId) {
          var updated := Merge(hosts[idx], payload);
          hosts := hosts[idx := updated];
          return Ok(updated);
        }
      }
      r := Raised(HostNotFound(hostId));
    }

    /** add_host: the payload goes at the end; the other hosts are untouched. */
    method AddHost(payload: Record) returns (r: Record)
      modifies this
      ensures hosts == old(hosts) + [payload]
      ensures r == payload && settings == old(settings)
    {
      hosts := hosts + [payload];
      r := payload;
    }

    /** delete_host: every host with the id goes, the rest keep their order. */
    method DeleteHost(hostId: string)
      modifies this
      ensures hosts == Without(old(hosts), hostId)
      ensures settings == old(settings)
    {
      hosts := Without(hosts, hostId);
    }
  }
}
