/** The trusted inventory: canonical locators as index keys, snapshots and aliases merged into the index, and
    references resolved without ambiguity. Strings are sequences of runes here. */
module Inventory {
  import opened Canonical

  // ---------- Names ----------

  predicate White(c: char) {
    || '\t' <= c <= '\r' || c == ' ' || c == '\U{85}' || c == '\U{A0}' || c == '\U{1680}' || '\U{2000}' <= c <= '\U{200A}'
    || c == '\U{2028}' || c == '\U{2029}' || c == '\U{202F}' || c == '\U{205F}' || c == '\U{3000}'
  }

  function TrimLeft(s: string): (r: string)
    ensures |r| <= |s| && (r == "" || !White(r[0]))
  {
    if s != "" && White(s[0]) then TrimLeft(s[1..]) else s
  }

  function TrimRight(s: string): (r: string)
    ensures |r| <= |s| && (r == "" || !White(r[|r| - 1])) && r <= s
  {
    if s != "" && White(s[|s| - 1]) then TrimRight(s[..|s| - 1]) else s
  }

  function Trim(s: string): string { TrimRight(TrimLeft(s)) }

  lemma TrimmedStays(s: string)
    requires s == "" || (!White(s[0]) && !White(s[|s| - 1]))
    ensures Trim(s) == s
  {
  }

  function Lower(c: char): char { if 'A' <= c <= 'Z' then (c as int + 32) as char else c }

  function LowerAll(s: string): (r: string)
    ensures |r| == |s| && forall i :: 0 <= i < |s| ==> r[i] == Lower(s[i])
  {
    seq(|s|, i requires 0 <= i < |s| => Lower(s[i]))
  }

  predicate GuidChar(c: char, i: nat) {
    if i == 8 || i == 13 || i == 18 || i == 23 then c == '-' else '0' <= c <= '9' || 'a' <= c <= 'f'
  }

  predicate ValidGuid(s: string) { |s| == 36 && forall i :: 0 <= i < 36 ==> GuidChar(s[i], i) }

  function NormalizeGuid(s: string): Option<string> {
    var cleaned := LowerAll(Trim(s));
    if ValidGuid(cleaned) then Some(cleaned) else None
  }

  predicate HostIdChar(c: char) {
    'a' <= c <= 'z' || 'A' <= c <= 'Z' || '0' <= c <= '9' || c == '_' || c == '-' || c == '.'
  }

  predicate ValidHostId(s: string) { 1 <= |s| <= 128 && forall i :: 0 <= i < |s| ==> HostIdChar(s[i]) }

  datatype Locator = Locator(hostId: string, vmid: string)

  function NewLocator(hostId: string, vmid: string): Option<Locator> {
    if !ValidHostId(hostId) || NormalizeGuid(vmid).None? then None else Some(Locator(hostId, NormalizeGuid(vmid).value))
  }

  predicate Proper(l: Locator) { ValidHostId(l.hostId) && ValidGuid(l.vmid) }

  function LocatorText(l: Locator): string { l.hostId + ":" + l.vmid }

  function Colon(s: string): (n: nat)
    ensures n <= |s| && (forall i :: 0 <= i < n ==> s[i] != ':') && (n < |s| ==> s[n] == ':')
  {
    if s == "" || s[0] == ':' then 0 else 1 + Colon(s[1..])
  }

  function ParseLocator(s: string): Option<Locator> {
    var n := Colon(s);
    if Trim(s) != s || n == |s| || n == 0 || n + 1 == |s| then None else NewLocator(s[..n], s[n + 1..])
  }

  lemma GuidIsNormal(g: string)
    requires ValidGuid(g)
    ensures NormalizeGuid(g) == Some(g)
  {
    assert GuidChar(g[0], 0) && GuidChar(g[35], 35);
    TrimmedStays(g);
    forall i | 0 <= i < 36 ensures LowerAll(g)[i] == g[i] { assert GuidChar(g[i], i); }
    assert LowerAll(g) == g;
  }

  /** The text of a proper locator parses back to it, so index keys are injective. */
  lemma LocatorRoundTrip(l: Locator)
    requires Proper(l)
    ensures ParseLocator(LocatorText(l)) == Some(l)
  {
    var s := LocatorText(l);
    assert HostIdChar(s[0]) && s[|s| - 1] == l.vmid[35] && GuidChar(l.vmid[35], 35);
    TrimmedStays(s);
    assert s[|l.hostId|] == ':';
    assert forall i :: 0 <= i < |l.hostId| ==> s[i] == l.hostId[i] && HostIdChar(s[i]);
    assert Colon(s) == |l.hostId|;
    assert s[..|l.hostId|] == l.hostId && s[|l.hostId| + 1..] == l.vmid;
    GuidIsNormal(l.vmid);
  }

  lemma KeysAreInjective(a: Locator, b: Locator)
    requires Proper(a) && Proper(b) && LocatorText(a) == LocatorText(b)
    ensures a == b
  {
    LocatorRoundTrip(a);
    LocatorRoundTrip(b);
  }

  lemma ParsedIsProper(s: string)
    ensures ParseLocator(s).Some? ==> Proper(ParseLocator(s).value)
  {
  }

  /** The bytes of a rune. */
  function Width(c: char): nat { if c < '\U{80}' then 1 else if c < '\U{800}' then 2 else if c < '\U{10000}' then 3 else 4 }

  function Bytes(s: string): nat { if s == "" then 0 else Width(s[0]) + Bytes(s[1..]) }

  predicate Control(c: char) { c < ' ' || '\U{7F}' <= c <= '\U{9F}' }

  function NormalizeAlias(s: string): Option<string> {
    var cleaned := Trim(s);
    if 1 <= Bytes(cleaned) <= 128 && forall i :: 0 <= i < |cleaned| ==> !Control(cleaned[i]) then Some(cleaned) else None
  }

  // ---------- Hosts and machines ----------

  const LOCAL := "local"

  /** `sound` is the verdict of the host checks other than those of the ID and the aliases. */
  datatype Host = Host(id: string, address: string, enabled: bool, aliases: seq<string>, sound: bool)

  datatype Status = Observed | Stale | HostUnavailable | AccessDenied

  /** `sound` is the verdict of the checks of the observation and of the entry built from it. */
  datatype Observation = Observation(id: string, name: string, observedAt: int, sound: bool)

  datatype Entry = Entry(locator: Locator, displayName: string, aliases: seq<string>, lastObservedAt: int, status: Status, observation: Observation)

  type Index = map<string, Entry>

  type Registry = map<string, Host>

  function ObservedEntry(hostId: string, obs: Observation): Option<Entry> {
    var locator := NewLocator(hostId, obs.id);
    if locator.None? || !obs.sound then None
    else Some(Entry(locator.value, obs.name, [], obs.observedAt, Observed, obs.(id := locator.value.vmid)))
  }

  // ---------- What snapshots and aliases do to the index ----------

  function Marked(before: Index, hostId: string, present: set<string>): Index {
    map k | k in before :: if before[k].locator.hostId == hostId && k !in present then before[k].(status := Stale) else before[k]
  }

  function Inserted(before: Index, next: Index): Index {
    map k | k in before.Keys + next.Keys :: InsertedEntry(before, next, k)
  }

  function InsertedEntry(before: Index, next: Index, k: string): Entry
    requires k in before || k in next
  {
    if k !in next then before[k] else if k in before then next[k].(aliases := before[k].aliases) else next[k]
  }

  /** The index after a snapshot that observed the machines of `next`. */
  function Merged(before: Index, hostId: string, next: Index): Index { Inserted(Marked(before, hostId, next.Keys), next) }

  function WithStatus(before: Index, hostId: string, status: Status): Index {
    map k | k in before :: if before[k].locator.hostId == hostId then before[k].(status := status) else before[k]
  }

  /** The entries of the observations, none if one is refused or two are of one machine. */
  function BuildFrom(hostId: string, machines: seq<Observation>): Option<Index> {
    if machines == [] then Some(map[])
    else
      var before := BuildFrom(hostId, machines[..|machines| - 1]);
      var e := ObservedEntry(hostId, machines[|machines| - 1]);
      if before.None? || e.None? || LocatorText(e.value.locator) in before.value then None
      else Some(before.value[LocatorText(e.value.locator) := e.value])
  }

  lemma {:induction false} PrefixBuilds(hostId: string, machines: seq<Observation>, n: nat)
    requires n <= |machines| && BuildFrom(hostId, machines).Some?
    ensures BuildFrom(hostId, machines[..n]).Some?
    decreases |machines| - n
  {
    if n < |machines| {
      PrefixBuilds(hostId, machines, n + 1);
      assert machines[..n + 1][..n] == machines[..n];
    } else {
      assert machines[..n] == machines;
    }
  }

  /** `health` is None for a health the inventory does not know. */
  datatype Snapshot = Snapshot(hostId: string, health: Option<Status>, machines: seq<Observation>, failed: bool)

  /** `ApplySnapshot`: the new index, or the old one and a refusal. */
  function Snapshotted(hosts: Registry, index: Index, s: Snapshot): (Index, bool) {
    if !ValidHostId(s.hostId) || s.health.None? || (s.health.value.Observed? && s.failed) then (index, false)
    else if s.health.value.Observed? then
      var next := BuildFrom(s.hostId, s.machines);
      if next.None? || s.hostId !in hosts then (index, false) else (Merged(index, s.hostId, next.value), true)
    else if s.hostId !in hosts then (index, false)
    else (WithStatus(index, s.hostId, s.health.value), true)
  }

  /** Aliases that no machine answers to by locator or GUID and no other machine by name or alias. */
  ghost predicate Free(index: Index, own: string, names: set<string>) {
    && (forall k :: k in index ==> k !in names && index[k].locator.vmid !in names)
    && forall k :: k in index && k != own ==> Unclaimed(index[k], names)
  }

  predicate Unclaimed(e: Entry, names: set<string>) {
    e.displayName !in names && forall i :: 0 <= i < |e.aliases| ==> e.aliases[i] !in names
  }

  function Normalized(aliases: seq<string>): (r: seq<string>)
    requires AliasesOk(aliases)
    ensures |r| == |aliases| && forall i :: 0 <= i < |aliases| ==> NormalizeAlias(aliases[i]) == Some(r[i])
  {
    seq(|aliases|, i requires 0 <= i < |aliases| => NormalizeAlias(aliases[i]).value)
  }

  predicate AliasesOk(aliases: seq<string>) {
    && (forall i :: 0 <= i < |aliases| ==> NormalizeAlias(aliases[i]).Some?)
    && forall i, j :: 0 <= i < j < |aliases| ==> NormalizeAlias(aliases[i]) != NormalizeAlias(aliases[j])
  }

  function Names(s: seq<string>): set<string> { set x | x in s }

  /** `SetMachineAliases`: accepted exactly for a known machine and names that are free. */
  ghost function Aliased(index: Index, l: Locator, aliases: seq<string>): (Index, bool) {
    if NewLocator(l.hostId, l.vmid).None? || !AliasesOk(aliases) || LocatorText(l) !in index then (index, false)
    else if !Free(index, LocatorText(l), Names(Normalized(aliases))) then (index, false)
    else (index[LocatorText(l) := index[LocatorText(l)].(aliases := Normalized(aliases))], true)
  }

  // ---------- Resolution ----------

  datatype Failure = Empty | Missing | Ambiguous | Disabled | Denied | Unavailable | StaleReference | Invalid

  datatype Result = Ok(entry: Entry) | Err(failure: Failure)

  /** The entries a reference may mean. */
  function Candidates(index: Index, reference: string): set<string> {
    if ParseLocator(reference).Some? then
      var key := LocatorText(ParseLocator(reference).value);
      if key in index then {key} else {}
    else if NormalizeGuid(reference).Some? then
      set k | k in index && index[k].locator.vmid == NormalizeGuid(reference).value
    else
      set k | k in index && (index[k].displayName == reference || reference in index[k].aliases)
  }

  /** The entries under these distinct keys, in their order. */
  ghost predicate ListedBy(index: Index, keys: seq<string>, matches: seq<Entry>) {
    && |keys| == |matches| && (forall i, j :: 0 <= i < j < |keys| ==> keys[i] != keys[j])
    && forall i :: 0 <= i < |keys| ==> keys[i] in index && matches[i] == index[keys[i]]
  }

  /** The entry under each of these keys, once. */
  ghost predicate ListsEach(index: Index, of: set<string>, matches: seq<Entry>) {
    exists keys :: Names(keys) == of && ListedBy(index, keys, matches)
  }

  predicate Enabled(hosts: Registry, id: string) { id in hosts && hosts[id].enabled }

  function Judge(hosts: Registry, e: Entry): Result {
    if !Enabled(hosts, e.locator.hostId) then Err(Disabled)
    else
      match e.status
      case Observed => Ok(e)
      case Stale => Err(StaleReference)
      case HostUnavailable => Err(Unavailable)
      case AccessDenied => Err(Denied)
  }

  /** Resolution succeeds with an entry, or not, whatever the order of the map. */
  ghost predicate Resolves(hosts: Registry, index: Index, reference: string, r: Result) {
    if Trim(reference) == "" then r == Err(Empty)
    else if Trim(reference) != reference then r == Err(Missing)
    else
      var keys := Candidates(index, reference);
      if keys == {} then r == Err(Missing)
      else if |keys| > 1 then r == Err(Ambiguous)
      else exists k :: keys == {k} && k in index && r == Judge(hosts, index[k])
  }

  // ---------- Host registry ----------

  predicate HostOk(h: Host) { ValidHostId(h.id) && (h.id == LOCAL ==> h.address == LOCAL) && h.sound && AliasesOk(h.aliases) }

  /** The aliases that a host answers to. */
  predicate Answers(h: Host, alias: string) { exists i :: 0 <= i < |h.aliases| && NormalizeAlias(h.aliases[i]) == Some(alias) }

  ghost predicate HostsOk(hs: seq<Host>) {
    && (forall i :: 0 <= i < |hs| ==> HostOk(hs[i]))
    && (forall i, j :: 0 <= i < j < |hs| ==> hs[i].id != hs[j].id)
    && forall i, j, alias :: 0 <= i < j < |hs| && Answers(hs[i], alias) ==> !Answers(hs[j], alias)
  }

  function WithAutomaticLocal(hs: seq<Host>): seq<Host> {
    if exists i :: 0 <= i < |hs| && hs[i].id == LOCAL then hs else [Host(LOCAL, LOCAL, true, [], true)] + hs
  }

  ghost predicate RegistryOf(hs: seq<Host>, r: Registry) {
    && (forall i :: 0 <= i < |hs| ==> hs[i].id in r && r[hs[i].id] == hs[i])
    && forall id :: id in r ==> exists i :: 0 <= i < |hs| && hs[i].id == id
  }

  /** The owners of the aliases of some hosts. */
  ghost predicate Owners(hs: seq<Host>, owners: map<string, string>) {
    && (forall i, alias :: 0 <= i < |hs| && Answers(hs[i], alias) ==> alias in owners && owners[alias] == hs[i].id)
    && forall alias :: alias in owners ==> exists i :: 0 <= i < |hs| && Answers(hs[i], alias)
  }

  class TrustedInventory {
    var hosts: Registry
    var machines: Index

    constructor ()
      ensures hosts == map[] && machines == map[]
    {
      hosts, machines := map[], map[];
    }

    method ValidateHost(h: Host) returns (ok: bool)
      ensures ok <==> HostOk(h)
    {
      hide NormalizeAlias, ValidHostId;
      if !ValidHostId(h.id) || (h.id == LOCAL && h.address != LOCAL) || !h.sound { return false; }
      var seen: set<string> := {};
      for i := 0 to |h.aliases|
        invariant AliasesOk(h.aliases[..i])
        invariant forall x :: x in seen <==> exists j :: 0 <= j < i && NormalizeAlias(h.aliases[j]) == Some(x)
      {
        var normalized := NormalizeAlias(h.aliases[i]);
        if normalized.None? { return false; }
        if normalized.value in seen { return false; }
        seen := seen + {normalized.value};
      }
      return true;
    }

    /** The whole registry is replaced or, if any entry is refused, none of it. */
    method ReplaceHosts(given: seq<Host>) returns (ok: bool)
      modifies this`hosts
      ensures ok <==> HostsOk(WithAutomaticLocal(given))
      ensures if ok then RegistryOf(WithAutomaticLocal(given), hosts) else hosts == old(hosts)
    {
      var hs := WithAutomaticLocal(given);
      var next: Registry := map[];
      var owners: map<string, string> := map[];
      for n := 0 to |hs|
        invariant HostsOk(hs[..n]) && RegistryOf(hs[..n], next) && Owners(hs[..n], owners)
        invariant hosts == old(hosts)
      {
        var valid := ValidateHost(hs[n]);
        if !valid { return false; }
        if hs[n].id in next {
          return false;
        }
        var clash;
        clash, owners := ClaimAliases(hs[n], hs[..n], owners);
        if clash {
          return false;
        }
        HostsGrow(hs[..n], hs[n], next);
        assert hs[..n + 1] == hs[..n] + [hs[n]];
        next := next[hs[n].id := hs[n]];
      }
      assert hs[..|hs|] == hs;
      hosts := next;
      return true;
    }

    method ClaimAliases(h: Host, ghost before: seq<Host>, owners: map<string, string>) returns (clash: bool, claimed: map<string, string>)
      requires HostOk(h) && Owners(before, owners) && forall i :: 0 <= i < |before| ==> before[i].id != h.id
      ensures clash <==> exists i, alias :: 0 <= i < |before| && Answers(before[i], alias) && Answers(h, alias)
      ensures !clash ==> Owners(before + [h], claimed)
    {
      claimed := owners;
      OwnersAreOthers(before, h, owners);
      hide NormalizeAlias, Owners, ValidHostId;
      for i := 0 to |h.aliases|
        invariant forall alias :: alias in owners ==> alias in claimed && claimed[alias] == owners[alias]
        invariant forall alias :: alias in claimed && alias !in owners ==>
                    claimed[alias] == h.id && exists j :: 0 <= j < i && NormalizeAlias(h.aliases[j]) == Some(alias)
        invariant forall j :: 0 <= j < i ==> NormalizeAlias(h.aliases[j]).value in claimed && NormalizeAlias(h.aliases[j]).value !in owners
      {
        var alias := NormalizeAlias(h.aliases[i]).value;
        if alias in claimed && claimed[alias] != h.id {
          ClashFound(before, h, owners, alias);
          return true, claimed;
        }
        claimed := claimed[alias := h.id];
      }
      assert forall alias :: Answers(h, alias) ==> alias !in owners && alias in claimed;
      NoClash(before, h, owners);
      OwnersGrow(before, h, owners, claimed);
      return false, claimed;
    }

    // ---------- Snapshots ----------

    method BuildObservedEntries(hostId: string, observations: seq<Observation>) returns (next: Option<Index>)
      ensures next == BuildFrom(hostId, observations)
    {
      next := Some(map[]);
      for n := 0 to |observations|
        invariant next.Some? && next == BuildFrom(hostId, observations[..n])
      {
        assert observations[..n + 1][..n] == observations[..n];
        var e := ObservedEntry(hostId, observations[n]);
        if e.None? || LocatorText(e.value.locator) in next.value {
          if BuildFrom(hostId, observations).Some? { PrefixBuilds(hostId, observations, n + 1); }
          return None;
        }
        next := Some(next.value[LocatorText(e.value.locator) := e.value]);
      }
      assert observations[..|observations|] == observations;
    }

    /** The first loop over the index: machines of this host that are gone become stale. */
    method MarkMissing(hostId: string, next: Index)
      modifies this`machines
      ensures machines == Marked(old(machines), hostId, next.Keys)
    {
      var left := machines.Keys;
      while left != {}
        invariant left <= old(machines).Keys == machines.Keys
        invariant forall k :: k in machines ==>
                    machines[k] == if k !in left then Marked(old(machines), hostId, next.Keys)[k] else old(machines)[k]
        decreases |left|
      {
        var k :| k in left;
        left := left - {k};
        var entry := machines[k];
        if entry.locator.hostId != hostId { continue; }
        if k !in next { machines := machines[k := entry.(status := Stale)]; }
      }
    }

    /** The second loop: observed entries take their place, keeping aliases. */
    method InsertObserved(next: Index)
      modifies this`machines
      ensures machines == Inserted(old(machines), next)
    {
      ghost var before := machines;
      var left := next.Keys;
      while left != {}
        invariant left <= next.Keys && Inserting(before, next, left, machines)
        decreases |left|
      {
        var k :| k in left;
        var entry := next[k];
        InsertingStep(before, next, left, machines, k);
        if k in machines { entry := entry.(aliases := machines[k].aliases); }
        left := left - {k};
        machines := machines[k := entry];
      }
      InsertingEnd(before, next, machines);
    }

    method ApplyObservedSnapshot(hostId: string, next: Index) returns (ok: bool)
      modifies this`machines
      ensures ok <==> hostId in hosts
      ensures machines == if ok then Merged(old(machines), hostId, next) else old(machines)
    {
      if hostId !in hosts { return false; }
      MarkMissing(hostId, next);
      InsertObserved(next);
      return true;
    }

    method ApplyHostStatus(hostId: string, status: Status) returns (ok: bool)
      modifies this`machines
      ensures ok <==> hostId in hosts
      ensures machines == if ok then WithStatus(old(machines), hostId, status) else old(machines)
    {
      if hostId !in hosts { return false; }
      ghost var marked := WithStatus(machines, hostId, status);
      var left := machines.Keys;
      while left != {}
        invariant Updating(old(machines), marked, left, machines)
        decreases |left|
      {
        var k :| k in left;
        UpdatingStep(old(machines), marked, left, machines, k);
        left := left - {k};
        if machines[k].locator.hostId == hostId { machines := machines[k := machines[k].(status := status)]; }
      }
      return true;
    }

    method ApplySnapshot(s: Snapshot) returns (ok: bool)
      modifies this`machines
      ensures (machines, ok) == Snapshotted(hosts, old(machines), s)
    {
      if !ValidHostId(s.hostId) { return false; }
      if s.health.None? || (s.health.value.Observed? && s.failed) { return false; }
      if s.health.value.Observed? {
        var next := BuildObservedEntries(s.hostId, s.machines);
        if next.None? { return false; }
        ok := ApplyObservedSnapshot(s.hostId, next.value);
      } else {
        ok := ApplyHostStatus(s.hostId, s.health.value);
      }
    }

    // ---------- Resolution ----------

    /** The loop over the index that collects the matching entries, in any order. */
    method CollectMatches(reference: string) returns (matches: seq<Entry>)
      requires ParseLocator(reference).None?
      ensures ListsEach(machines, Candidates(machines, reference), matches)
    {
      ghost var keys := [];
      matches := [];
      var guid := NormalizeGuid(reference);
      var left := machines.Keys;
      while left != {}
        invariant left <= machines.Keys
        invariant ListedBy(machines, keys, matches)
        invariant forall k :: k in keys <==> k in Candidates(machines, reference) && k !in left
        decreases |left|
      {
        var k :| k in left;
        left := left - {k};
        var entry := machines[k];
        if if guid.Some? then entry.locator.vmid == guid.value else entry.displayName == reference || reference in entry.aliases {
          matches, keys := matches + [entry], keys + [k];
        }
      }
      assert Names(keys) == Candidates(machines, reference) && ListedBy(machines, keys, matches);
    }

    method SelectOne(matches: seq<Entry>) returns (r: Result)
      ensures |matches| == 0 ==> r == Err(Missing)
      ensures |matches| == 1 ==> r == Judge(hosts, matches[0])
      ensures |matches| > 1 ==> r == Err(Ambiguous)
    {
      if |matches| > 1 { return Err(Ambiguous); }
      var current: seq<Entry> := [];
      var disabled, stale, unavailable, denied := false, false, false, false;
      for n := 0 to |matches|
        invariant n == 0 ==> current == [] && !disabled && !stale && !unavailable && !denied
        invariant n == 1 ==> var judged := Judge(hosts, matches[0]);
                    && (current == if judged.Ok? then [matches[0]] else [])
                    && (disabled <==> judged == Err(Disabled)) && (stale <==> judged == Err(StaleReference))
                    && (unavailable <==> judged == Err(Unavailable)) && (denied <==> judged == Err(Denied))
      {
        var entry := matches[n];
        if entry.locator.hostId !in hosts || !hosts[entry.locator.hostId].enabled {
          disabled := true;
          continue;
        }
        match entry.status
        case Observed => current := current + [entry];
        case Stale => stale := true;
        case HostUnavailable => unavailable := true;
        case AccessDenied => denied := true;
      }
      if |current| == 1 { return Ok(current[0]); }
      return Err(if disabled then Disabled else if denied then Denied else if unavailable then Unavailable
                 else if stale then StaleReference else Missing);
    }

    method ResolveMachine(reference: string) returns (r: Result)
      ensures Resolves(hosts, machines, reference, r)
    {
      var trimmed := Trim(reference);
      if trimmed == "" { return Err(Empty); }
      if trimmed != reference { return Err(Missing); }
      var locator := ParseLocator(reference);
      if locator.Some? {
        var key := LocatorText(locator.value);
        if key !in machines { return Err(Missing); }
        r := SelectOne([machines[key]]);
        assert Candidates(machines, reference) == {key} && |{key}| == 1;
        return;
      }
      var matches := CollectMatches(reference);
      ghost var keys :| Names(keys) == Candidates(machines, reference) && ListedBy(machines, keys, matches);
      NamesCount(keys);
      r := SelectOne(matches);
      if |matches| == 1 { assert Names(keys) == {keys[0]}; }
    }

    // ---------- Aliases ----------

    method NormalizeMachineAliases(l: Locator, aliases: seq<string>) returns (r: Option<seq<string>>)
      ensures r.Some? <==> NewLocator(l.hostId, l.vmid).Some? && AliasesOk(aliases)
      ensures r.Some? ==> r.value == Normalized(aliases)
    {
      if NewLocator(l.hostId, l.vmid).None? { return None; }
      hide NormalizeAlias, NewLocator;
      var normalized: seq<string> := [];
      var seen: set<string> := {};
      for i := 0 to |aliases|
        invariant AliasesOk(aliases[..i]) && |normalized| == i
        invariant forall j :: 0 <= j < i ==> NormalizeAlias(aliases[j]) == Some(normalized[j])
        invariant seen == Names(normalized)
      {
        NamesGrow(normalized);
        var value := NormalizeAlias(aliases[i]);
        if value.None? { return None; }
        if value.value in seen {
          return None;
        }
        seen := seen + {value.value};
        normalized := normalized + [value.value];
      }
      assert aliases[..|aliases|] == aliases;
      return Some(normalized);
    }

    method RejectCanonicalCollisions(names: set<string>) returns (free: bool)
      ensures free <==> forall k :: k in machines ==> k !in names && machines[k].locator.vmid !in names
    {
      var left := machines.Keys;
      while left != {}
        invariant left <= machines.Keys
        invariant forall k :: k in machines && k !in left ==> k !in names && machines[k].locator.vmid !in names
        decreases |left|
      {
        var k :| k in left;
        left := left - {k};
        if k in names || machines[k].locator.vmid in names { return false; }
      }
      return true;
    }

    method RejectOtherMachines(own: string, names: set<string>) returns (free: bool)
      ensures free <==> forall k :: k in machines && k != own ==> Unclaimed(machines[k], names)
    {
      var left := machines.Keys;
      while left != {}
        invariant left <= machines.Keys
        invariant forall k :: k in machines && k != own && k !in left ==> Unclaimed(machines[k], names)
        decreases |left|
      {
        var k :| k in left;
        left := left - {k};
        if k == own { continue; }
        var candidate := machines[k];
        if candidate.displayName in names { return false; }
        for i := 0 to |candidate.aliases|
          invariant forall j :: 0 <= j < i ==> candidate.aliases[j] !in names
        {
          if candidate.aliases[i] in names { return false; }
        }
      }
      return true;
    }

    method SetMachineAliases(l: Locator, aliases: seq<string>) returns (ok: bool)
      modifies this`machines
      ensures (machines, ok) == Aliased(old(machines), l, aliases)
    {
      var normalized := NormalizeMachineAliases(l, aliases);
      if normalized.None? { return false; }
      var key := LocatorText(l);
      if key !in machines { return false; }
      var names := Names(normalized.value);
      var free := RejectCanonicalCollisions(names);
      if !free { return false; }
      free := RejectOtherMachines(key, names);
      if !free { return false; }
      machines := machines[key := machines[key].(aliases := normalized.value)];
      return true;
    }
  }

  /** All entries but those left have been updated. */
  ghost predicate Updating(before: Index, after: Index, left: set<string>, now: Index) {
    && left <= before.Keys == after.Keys == now.Keys
    && forall k :: k in now ==> now[k] == if k in left then before[k] else after[k]
  }

  lemma UpdatingStep(before: Index, after: Index, left: set<string>, now: Index, k: string)
    requires Updating(before, after, left, now) && k in left
    ensures now[k] == before[k] && Updating(before, after, left - {k}, now[k := after[k]])
    ensures before[k] == after[k] ==> now[k := after[k]] == now
  {
  }

  /** The index with all but the entries of `left` inserted. */
  ghost predicate Inserting(before: Index, next: Index, left: set<string>, now: Index) {
    && (forall k :: k in now <==> k in before || (k in next && k !in left))
    && forall k :: k in now ==> now[k] == if k in next && k !in left then InsertedEntry(before, next, k) else before[k]
  }

  lemma InsertingStep(before: Index, next: Index, left: set<string>, now: Index, k: string)
    requires Inserting(before, next, left, now) && k in left && k in next
    ensures Inserting(before, next, left - {k}, now[k := if k in now then next[k].(aliases := now[k].aliases) else next[k]])
  {
  }

  lemma InsertingEnd(before: Index, next: Index, now: Index)
    requires Inserting(before, next, {}, now)
    ensures now == Inserted(before, next)
  {
  }

  lemma OwnersAreOthers(before: seq<Host>, h: Host, owners: map<string, string>)
    requires Owners(before, owners) && forall i :: 0 <= i < |before| ==> before[i].id != h.id
    ensures forall alias :: alias in owners ==> owners[alias] != h.id
  {
    forall alias | alias in owners ensures owners[alias] != h.id {
      var i :| 0 <= i < |before| && Answers(before[i], alias);
    }
  }

  lemma ClashFound(before: seq<Host>, h: Host, owners: map<string, string>, alias: string)
    requires Owners(before, owners) && alias in owners && Answers(h, alias)
    ensures exists i, x :: 0 <= i < |before| && Answers(before[i], x) && Answers(h, x)
  {
  }

  lemma NoClash(before: seq<Host>, h: Host, owners: map<string, string>)
    requires Owners(before, owners) && forall alias :: Answers(h, alias) ==> alias !in owners
    ensures forall i, x :: 0 <= i < |before| && Answers(before[i], x) ==> !Answers(h, x)
  {
    hide Answers;
  }

  lemma OwnersGrow(before: seq<Host>, h: Host, owners: map<string, string>, claimed: map<string, string>)
    requires Owners(before, owners)
    requires forall alias :: alias in owners ==> alias in claimed && claimed[alias] == owners[alias]
    requires forall alias :: alias in claimed && alias !in owners ==> claimed[alias] == h.id && Answers(h, alias)
    requires forall alias :: Answers(h, alias) ==> alias !in owners && alias in claimed
    ensures Owners(before + [h], claimed)
  {
    var all := before + [h];
    hide Answers;
    forall i, alias | 0 <= i < |all| && Answers(all[i], alias) ensures alias in claimed && claimed[alias] == all[i].id {
      if i < |before| { assert Answers(before[i], alias); }
    }
    forall alias | alias in claimed ensures exists i :: 0 <= i < |all| && Answers(all[i], alias) {
      if alias in owners {
        var i :| 0 <= i < |before| && Answers(before[i], alias);
        assert Answers(all[i], alias);
      } else {
        assert Answers(all[|before|], alias);
      }
    }
  }

  lemma HostsGrow(before: seq<Host>, h: Host, next: Registry)
    requires HostsOk(before) && HostOk(h) && RegistryOf(before, next) && h.id !in next
    requires forall i, alias :: 0 <= i < |before| && Answers(before[i], alias) ==> !Answers(h, alias)
    ensures HostsOk(before + [h]) && RegistryOf(before + [h], next[h.id := h])
  {
    hide HostOk, Answers;
    var all := before + [h];
    var grown := next[h.id := h];
    forall id | id in grown ensures exists i :: 0 <= i < |all| && all[i].id == id {
      if id == h.id { assert all[|before|].id == id; }
      else { var i :| 0 <= i < |before| && before[i].id == id; assert all[i].id == id; }
    }
  }

  lemma NamesGrow(s: seq<string>)
    ensures forall x :: Names(s + [x]) == Names(s) + {x}
  {
  }

  lemma {:induction false} NamesCount(keys: seq<string>)
    requires forall i, j :: 0 <= i < j < |keys| ==> keys[i] != keys[j]
    ensures |Names(keys)| == |keys|
  {
    if keys != [] {
      var init := keys[..|keys| - 1];
      NamesCount(init);
      assert Names(keys) == Names(init) + {keys[|keys| - 1]};
    }
  }

  // ---------- Resolution is unambiguous ----------

  /** A reference resolves in one way only, whatever the order of the index. */
  lemma ResolutionIsUnique(hosts: Registry, index: Index, reference: string, a: Result, b: Result)
    requires Resolves(hosts, index, reference, a) && Resolves(hosts, index, reference, b)
    ensures a == b
  {
  }

  /** It succeeds exactly when one entry matches, and that entry is observed on an enabled host. */
  lemma ResolvesExactly(hosts: Registry, index: Index, reference: string, e: Entry)
    ensures Resolves(hosts, index, reference, Ok(e)) <==>
              && Trim(reference) == reference != ""
              && exists k :: Candidates(index, reference) == {k} && k in index && index[k] == e && e.status.Observed? && Enabled(hosts, e.locator.hostId)
  {
    if k :| Candidates(index, reference) == {k} && k in index {
      assert |{k}| == 1;
      forall j | {k} == {j} ensures j == k { assert j in {k}; }
    }
  }

  // ---------- Runs ----------

  datatype State = State(hosts: Registry, machines: Index)

  datatype Operation = Replace(given: seq<Host>) | Apply(snapshot: Snapshot) | Alias(locator: Locator, aliases: seq<string>)

  /** One call, as the methods specify it; a refused one changes nothing. */
  ghost predicate Transition(s: State, op: Operation, t: State) {
    match op
    case Replace(given) =>
      t.machines == s.machines && if HostsOk(WithAutomaticLocal(given)) then RegistryOf(WithAutomaticLocal(given), t.hosts) else t == s
    case Apply(snapshot) => t == s.(machines := Snapshotted(s.hosts, s.machines, snapshot).0)
    case Alias(l, aliases) => t == s.(machines := Aliased(s.machines, l, aliases).0)
  }

  ghost predicate KeysOk(index: Index) {
    forall k :: k in index ==> Proper(index[k].locator) && k == LocatorText(index[k].locator) && index[k].observation.id == index[k].locator.vmid
  }

  predicate Shares(a: Entry, b: Entry, alias: string) { alias in a.aliases && alias in b.aliases }

  ghost predicate AliasesDisjoint(index: Index) {
    forall j, k, alias :: j in index && k in index && j != k ==> !Shares(index[j], index[k], alias)
  }

  ghost predicate Inv(s: State) { KeysOk(s.machines) && AliasesDisjoint(s.machines) }

  lemma ObservedEntryOk(hostId: string, obs: Observation)
    requires ObservedEntry(hostId, obs).Some?
    ensures var e := ObservedEntry(hostId, obs).value;
            Proper(e.locator) && e.locator.hostId == hostId && e.observation.id == e.locator.vmid && e.aliases == []
  {
  }

  lemma {:induction false} BuiltOk(hostId: string, machines: seq<Observation>)
    requires BuildFrom(hostId, machines).Some?
    ensures var next := BuildFrom(hostId, machines).value;
            KeysOk(next) && forall k :: k in next ==> next[k].aliases == [] && next[k].locator.hostId == hostId
    decreases |machines|
  {
    hide ObservedEntry, Proper, LocatorText;
    if machines != [] {
      BuiltOk(hostId, machines[..|machines| - 1]);
      ObservedEntryOk(hostId, machines[|machines| - 1]);
    }
  }

  /** No snapshot touches another host's machines, forgets a machine, or gives a machine an alias. */
  lemma SnapshotEffect(hosts: Registry, index: Index, s: Snapshot)
    requires KeysOk(index)
    ensures var (after, ok) := Snapshotted(hosts, index, s);
            && KeysOk(after) && index.Keys <= after.Keys && (!ok ==> after == index)
            && (forall k :: k in after && after[k].locator.hostId != s.hostId ==> k in index && after[k] == index[k])
            && (forall k :: k in after ==> after[k].aliases == if k in index then index[k].aliases else [])
  {
    hide Proper, LocatorText, ValidHostId;
    if BuildFrom(s.hostId, s.machines).Some? {
      BuiltOk(s.hostId, s.machines);
      var next := BuildFrom(s.hostId, s.machines).value;
      forall k | k in next && k in index ensures index[k].locator == next[k].locator {
        SameKey(index, next, k);
      }
      hide BuildFrom;
    }
  }

  lemma SameKey(a: Index, b: Index, k: string)
    requires KeysOk(a) && KeysOk(b) && k in a && k in b
    ensures a[k].locator == b[k].locator
  {
    KeysAreInjective(a[k].locator, b[k].locator);
  }

  lemma AliasEffect(index: Index, l: Locator, aliases: seq<string>)
    requires KeysOk(index) && AliasesDisjoint(index)
    ensures var (after, ok) := Aliased(index, l, aliases);
            && KeysOk(after) && AliasesDisjoint(after) && after.Keys == index.Keys && (!ok ==> after == index)
            && forall k :: k in after && k != LocatorText(l) ==> after[k] == index[k]
  {
    hide Proper, LocatorText, NewLocator, AliasesOk;
    var (after, ok) := Aliased(index, l, aliases);
    if ok {
      var own := LocatorText(l);
      forall j, k, alias | j in after && k in after && j != k ensures !Shares(after[j], after[k], alias) {
        assert !Shares(index[j], index[k], alias);
        if j == own || k == own {
          var other := if j == own then k else j;
          assert Unclaimed(index[other], Names(Normalized(aliases)));
          assert alias in index[other].aliases ==> alias !in Names(Normalized(aliases));
        }
      }
    }
  }

  lemma TransitionKeeps(s: State, op: Operation, t: State)
    requires Inv(s) && Transition(s, op, t)
    ensures Inv(t) && s.machines.Keys <= t.machines.Keys
  {
    hide KeysOk, Snapshotted, Aliased, HostsOk, RegistryOf;
    match op {
      case Replace(_) =>
      case Apply(snapshot) =>
        SnapshotEffect(s.hosts, s.machines, snapshot);
        forall j, k, alias | j in t.machines && k in t.machines && j != k ensures !Shares(t.machines[j], t.machines[k], alias) {
          if j in s.machines && k in s.machines { assert !Shares(s.machines[j], s.machines[k], alias); }
        }
      case Alias(l, aliases) => AliasEffect(s.machines, l, aliases);
    }
  }

  ghost predicate IsRun(states: seq<State>, ops: seq<Operation>) {
    |states| == |ops| + 1 && forall i :: 0 <= i < |ops| ==> Transition(states[i], ops[i], states[i + 1])
  }

  lemma EmptyIsInv(s: State)
    requires s.machines == map[]
    ensures Inv(s)
  {
  }

  /** Over any sequence of registry changes, snapshots and alias changes, accepted or refused: keys are the texts of
      their proper locators, no machine is ever forgotten, and no two machines share an alias. */
  lemma {:induction false} RunsKeep(states: seq<State>, ops: seq<Operation>, i: nat, j: nat)
    requires IsRun(states, ops) && states[0].machines == map[] && i <= j < |states|
    ensures Inv(states[j]) && states[i].machines.Keys <= states[j].machines.Keys
    decreases j
  {
    hide Inv, Transition;
    if j == 0 {
      EmptyIsInv(states[0]);
    } else {
      RunsKeep(states, ops, if i < j then i else j - 1, j - 1);
      assert Transition(states[j - 1], ops[j - 1], states[j - 1 + 1]);
      TransitionKeeps(states[j - 1], ops[j - 1], states[j]);
    }
  }

  /** In a reachable index an alias names at most one machine, and a locator or a GUID on one host exactly its own. */
  lemma AliasesNameOneMachine(s: State, alias: string, j: string, k: string)
    requires Inv(s) && j in s.machines && k in s.machines && alias in s.machines[j].aliases && alias in s.machines[k].aliases
    ensures j == k
  {
    assert j != k ==> !Shares(s.machines[j], s.machines[k], alias);
  }

  lemma LocatorNamesItsMachine(s: State, k: string)
    requires Inv(s) && k in s.machines
    ensures Candidates(s.machines, k) == {k}
    ensures Resolves(s.hosts, s.machines, k, Judge(s.hosts, s.machines[k]))
  {
    var l := s.machines[k].locator;
    LocatorRoundTrip(l);
    assert Trim(k) == k && k != "";
    assert |{k}| == 1;
  }
}