/** The trusted inventory from the outside: what a reference means, when an alias is one, and what each machine's entry
    becomes under a snapshot. */
module InventoryMeaning {
  import opened Canonical
  import opened Inventory

  // ---------- References ----------

  /** A locator means its machine, a GUID the machines that have it, and anything else is a name or an alias. */
  predicate Meant(e: Entry, reference: string) {
    if ParseLocator(reference).Some? then e.locator == ParseLocator(reference).value
    else if NormalizeGuid(reference).Some? then Some(e.locator.vmid) == NormalizeGuid(reference)
    else e.displayName == reference || reference in e.aliases
  }

  ghost predicate MeansOnly(index: Index, reference: string, k: string) {
    k in index && forall j :: j in index ==> (Meant(index[j], reference) <==> j == k)
  }

  ghost predicate MeansNothing(index: Index, reference: string) { forall k :: k in index ==> !Meant(index[k], reference) }

  /** A machine is handed out while it is observed and its host is enabled; otherwise the error tells why not. */
  predicate Verdict(hosts: Registry, e: Entry, r: Result) {
    var enabled := e.locator.hostId in hosts && hosts[e.locator.hostId].enabled;
    && (r.Ok? <==> enabled && e.status.Observed?)
    && (r.Ok? ==> r.entry == e)
    && (r.Err? ==> if !enabled then r.failure.Disabled?
                   else if e.status.Stale? then r.failure.StaleReference?
                   else if e.status.HostUnavailable? then r.failure.Unavailable?
                   else r.failure.Denied?)
  }

  lemma CandidatesAreMeant(index: Index, reference: string)
    requires KeysOk(index)
    ensures forall k :: k in Candidates(index, reference) <==> k in index && Meant(index[k], reference)
  {
    if ParseLocator(reference).Some? {
      var l := ParseLocator(reference).value;
      ParsedIsProper(reference);
      forall k | k in index ensures k == LocatorText(l) <==> index[k].locator == l {
        if k == LocatorText(l) { KeysAreInjective(index[k].locator, l); }
      }
    }
    hide ParseLocator, LocatorText, NormalizeGuid, Proper;
  }

  lemma OneOrMore(keys: set<string>)
    ensures keys == {} || (exists k :: keys == {k}) || (exists j, k :: j in keys && k in keys && j != k)
    ensures (exists j, k :: j in keys && k in keys && j != k) <==> |keys| > 1
  {
    if keys != {} {
      var k :| k in keys;
      var rest := keys - {k};
      if rest == {} {
        assert keys == {k};
      } else {
        var j :| j in rest;
        assert |{j, k}| == 2 && {j, k} <= keys;
        assert |keys - {j, k}| >= 0;
      }
    }
  }

  /** What resolution answers, in terms of the machines that the reference means. */
  lemma ResolutionVerdict(hosts: Registry, index: Index, reference: string, r: Result)
    requires KeysOk(index)
    ensures Trim(reference) == "" ==> (Resolves(hosts, index, reference, r) <==> r == Err(Empty))
    ensures Trim(reference) != "" && (Trim(reference) != reference || MeansNothing(index, reference)) ==>
              (Resolves(hosts, index, reference, r) <==> r == Err(Missing))
    ensures Trim(reference) == reference && reference != "" ==>
              forall k :: MeansOnly(index, reference, k) ==> (Resolves(hosts, index, reference, r) <==> Verdict(hosts, index[k], r))
    ensures Trim(reference) == reference && reference != "" && !MeansNothing(index, reference) && (forall k :: !MeansOnly(index, reference, k)) ==>
              (Resolves(hosts, index, reference, r) <==> r == Err(Ambiguous))
  {
    CandidatesAreMeant(index, reference);
    hide Meant, Candidates, KeysOk;
    var keys := Candidates(index, reference);
    OneOrMore(keys);
    assert MeansNothing(index, reference) <==> keys == {} by {
      if keys != {} { var k :| k in keys; }
    }
    forall k ensures MeansOnly(index, reference, k) <==> keys == {k} {
      if keys == {k} { assert k in keys; }
    }
    if Trim(reference) == reference && reference != "" {
      forall k | MeansOnly(index, reference, k) ensures Resolves(hosts, index, reference, r) <==> Verdict(hosts, index[k], r) {
        OnlyCandidate(hosts, index, reference, r, k);
      }
      if |keys| > 1 { SeveralCandidates(hosts, index, reference, r); }
    }
    hide Resolves;
    NoCandidates(hosts, index, reference, r);
  }

  lemma OnlyCandidate(hosts: Registry, index: Index, reference: string, r: Result, k: string)
    requires Trim(reference) == reference && reference != "" && Candidates(index, reference) == {k} && k in index
    ensures Resolves(hosts, index, reference, r) <==> Verdict(hosts, index[k], r)
  {
    hide Candidates, Trim;
    assert |{k}| == 1;
    forall j | {k} == {j} ensures j == k { assert j in {k}; }
  }

  lemma SeveralCandidates(hosts: Registry, index: Index, reference: string, r: Result)
    requires Trim(reference) == reference && reference != "" && |Candidates(index, reference)| > 1
    ensures Resolves(hosts, index, reference, r) <==> r == Err(Ambiguous)
  {
    hide Candidates, Trim;
  }

  lemma NoCandidates(hosts: Registry, index: Index, reference: string, r: Result)
    ensures Trim(reference) == "" ==> (Resolves(hosts, index, reference, r) <==> r == Err(Empty))
    ensures Trim(reference) != "" && (Trim(reference) != reference || Candidates(index, reference) == {}) ==>
              (Resolves(hosts, index, reference, r) <==> r == Err(Missing))
  {
    hide Candidates, Trim;
  }

  // ---------- Aliases ----------

  lemma TrimTrims(s: string)
    ensures Trim(Trim(s)) == Trim(s)
  {
    var t := Trim(s);
    if t != "" {
      assert TrimRight(TrimLeft(s)) <= TrimLeft(s);
      assert t[0] == TrimLeft(s)[0];
    }
    TrimmedStays(t);
  }

  /** An alias that reads as no locator and no GUID means, once it has been accepted, its machine and no other. */
  lemma AliasMeansItsMachine(index: Index, l: Locator, aliases: seq<string>, i: nat)
    requires KeysOk(index) && Aliased(index, l, aliases).1 && i < |aliases|
    requires var alias := Trim(aliases[i]); ParseLocator(alias).None? && NormalizeGuid(alias).None?
    ensures var alias, after := Trim(aliases[i]), Aliased(index, l, aliases).0;
            && Trim(alias) == alias && alias != ""
            && MeansOnly(after, alias, LocatorText(l))
            && after[LocatorText(l)] == index[LocatorText(l)].(aliases := after[LocatorText(l)].aliases)
  {
    hide KeysOk, LocatorText, NewLocator, ParseLocator, NormalizeGuid;
    var alias, after, own := Trim(aliases[i]), Aliased(index, l, aliases).0, LocatorText(l);
    TrimTrims(aliases[i]);
    assert NormalizeAlias(aliases[i]) == Some(alias);
    assert alias != "";
    var names := Normalized(aliases);
    assert names[i] == alias;
    assert alias in Names(names) && alias in after[own].aliases;
    forall k | k in index && k != own ensures !Meant(after[k], alias) {
      assert Unclaimed(index[k], Names(names));
    }
  }

  /** An accepted alias resolves to its machine for as long as that is observed on an enabled host. */
  lemma AliasResolves(hosts: Registry, index: Index, l: Locator, aliases: seq<string>, i: nat, r: Result)
    requires KeysOk(index) && AliasesDisjoint(index) && Aliased(index, l, aliases).1 && i < |aliases|
    requires var alias := Trim(aliases[i]); ParseLocator(alias).None? && NormalizeGuid(alias).None?
    ensures var after := Aliased(index, l, aliases).0;
            && LocatorText(l) in after
            && (Resolves(hosts, after, Trim(aliases[i]), r) <==> Verdict(hosts, after[LocatorText(l)], r))
  {
    AliasMeansItsMachine(index, l, aliases, i);
    AliasEffect(index, l, aliases);
    hide *;
    ResolutionVerdict(hosts, Aliased(index, l, aliases).0, Trim(aliases[i]), r);
  }

  lemma {:induction false} NoColon(s: string)
    requires ':' !in s
    ensures Colon(s) == |s|
  {
    if s != "" { NoColon(s[1..]); }
  }

  /** A reference in the form of a GUID means that GUID, in whatever case it is written and whatever the aliases are. */
  lemma GuidFormIsTheGuid(hosts: Registry, index: Index, reference: string, r: Result)
    requires KeysOk(index) && Trim(reference) == reference && NormalizeGuid(reference).Some?
    ensures Resolves(hosts, index, reference, r) <==> Resolves(hosts, index, NormalizeGuid(reference).value, r)
  {
    var g := NormalizeGuid(reference).value;
    GuidIsNormal(g);
    forall i | 0 <= i < 36 ensures reference[i] != ':' && g[i] != ':' { assert GuidChar(g[i], i); }
    NoColon(reference);
    NoColon(g);
    assert GuidChar(g[0], 0) && GuidChar(g[35], 35);
    TrimmedStays(g);
    assert ParseLocator(reference).None? && ParseLocator(g).None?;
    hide KeysOk, ParseLocator, NormalizeGuid, Trim, ValidGuid, LowerAll;
    assert Candidates(index, reference) == Candidates(index, g);
  }

  // ---------- Snapshots ----------

  function Guid(obs: Observation): Option<string> { NormalizeGuid(obs.id) }

  /** The observations of one snapshot are all sound, of well-formed GUIDs, and of different machines. */
  predicate Distinct(machines: seq<Observation>) {
    && (forall i :: 0 <= i < |machines| ==> machines[i].sound && Guid(machines[i]).Some?)
    && forall i, j :: 0 <= i < j < |machines| ==> Guid(machines[i]) != Guid(machines[j])
  }

  function KeyOf(hostId: string, obs: Observation): string
    requires Guid(obs).Some?
  {
    hostId + ":" + Guid(obs).value
  }

  /** The entry that an observation makes, but for its aliases. */
  predicate Shows(e: Entry, hostId: string, obs: Observation) {
    && Guid(obs).Some? && e.locator == Locator(hostId, Guid(obs).value) && e.displayName == obs.name
    && e.lastObservedAt == obs.observedAt && e.status.Observed? && e.observation == obs.(id := Guid(obs).value)
  }

  ghost predicate Built(next: Index, hostId: string, machines: seq<Observation>)
    requires Distinct(machines)
  {
    && (forall k :: k in next <==> exists i :: 0 <= i < |machines| && k == KeyOf(hostId, machines[i]))
    && forall i :: 0 <= i < |machines| ==>
         KeyOf(hostId, machines[i]) in next && Shows(next[KeyOf(hostId, machines[i])], hostId, machines[i])
  }

  lemma EntryShows(hostId: string, obs: Observation)
    requires ValidHostId(hostId)
    ensures ObservedEntry(hostId, obs).Some? <==> obs.sound && Guid(obs).Some?
    ensures ObservedEntry(hostId, obs).Some? ==>
              var e := ObservedEntry(hostId, obs).value;
              Shows(e, hostId, obs) && e.aliases == [] && LocatorText(e.locator) == KeyOf(hostId, obs)
  {
  }

  lemma KeysApart(hostId: string, a: Observation, b: Observation)
    requires Guid(a).Some? && Guid(b).Some?
    ensures KeyOf(hostId, a) == KeyOf(hostId, b) <==> Guid(a) == Guid(b)
  {
    if KeyOf(hostId, a) == KeyOf(hostId, b) {
      assert KeyOf(hostId, a)[|hostId| + 1..] == Guid(a).value && KeyOf(hostId, b)[|hostId| + 1..] == Guid(b).value;
    }
  }

  lemma BuiltGrows(next: Index, hostId: string, init: seq<Observation>, last: Observation, e: Entry)
    requires Distinct(init + [last]) && Distinct(init) && Guid(last).Some? && Built(next, hostId, init) && Shows(e, hostId, last)
    ensures KeyOf(hostId, last) !in next && Built(next[KeyOf(hostId, last) := e], hostId, init + [last])
  {
    var all := init + [last];
    assert all[|init|] == last;
    forall i | 0 <= i < |init| ensures KeyOf(hostId, init[i]) != KeyOf(hostId, last) {
      assert all[i] == init[i];
      KeysApart(hostId, init[i], last);
    }
    hide Shows, Guid, KeyOf, Distinct;
    var grown := next[KeyOf(hostId, last) := e];
    forall i | 0 <= i < |all| ensures KeyOf(hostId, all[i]) in grown && Shows(grown[KeyOf(hostId, all[i])], hostId, all[i]) {
      if i < |init| { assert all[i] == init[i]; }
    }
    forall k ensures k in grown <==> exists i :: 0 <= i < |all| && k == KeyOf(hostId, all[i]) {
      if k in next {
        var i :| 0 <= i < |init| && k == KeyOf(hostId, init[i]);
        assert k == KeyOf(hostId, all[i]);
      }
      if k == KeyOf(hostId, last) { assert k == KeyOf(hostId, all[|init|]); }
      if i :| 0 <= i < |all| && k == KeyOf(hostId, all[i]) {
        if i < |init| { assert k == KeyOf(hostId, init[i]); }
      }
    }
  }

  /** A second observation of one machine finds its key taken. */
  lemma RepeatedIsTaken(next: Index, hostId: string, init: seq<Observation>, last: Observation)
    requires Distinct(init) && last.sound && Guid(last).Some? && Built(next, hostId, init) && !Distinct(init + [last])
    ensures KeyOf(hostId, last) in next
  {
    var i :| 0 <= i < |init| && Guid(init[i]) == Guid(last) by { LastRepeats(init, last); }
    KeysApart(hostId, init[i], last);
    hide KeyOf, Guid, Distinct, Shows;
    assert KeyOf(hostId, init[i]) in next;
  }

  lemma LastRepeats(init: seq<Observation>, last: Observation)
    requires Distinct(init) && last.sound && Guid(last).Some? && !Distinct(init + [last])
    ensures exists i :: 0 <= i < |init| && Guid(init[i]) == Guid(last)
  {
    hide Guid;
    var all := init + [last];
    assert all[|init|] == last && forall i :: 0 <= i < |init| ==> all[i] == init[i];
  }

  /** A snapshot's machines are taken exactly if they are sound and distinct, each under its own key. */
  lemma {:induction false} BuildsExactly(hostId: string, machines: seq<Observation>)
    requires ValidHostId(hostId)
    ensures BuildFrom(hostId, machines).Some? <==> Distinct(machines)
    ensures Distinct(machines) ==> Built(BuildFrom(hostId, machines).value, hostId, machines)
    decreases |machines|
  {
    hide ObservedEntry, Shows, Guid, LocatorText, KeyOf, ValidHostId, Distinct, Built;
    if machines == [] {
      EmptyBuilt(hostId);
    } else {
      var init, last := machines[..|machines| - 1], machines[|machines| - 1];
      BuildsExactly(hostId, init);
      EntryShows(hostId, last);
      assert machines == init + [last];
      if Distinct(init) && last.sound && Guid(last).Some? {
        var before := BuildFrom(hostId, init).value;
        if Distinct(machines) {
          BuiltGrows(before, hostId, init, last, ObservedEntry(hostId, last).value);
        } else {
          RepeatedIsTaken(before, hostId, init, last);
        }
      } else {
        PartsDistinct(init, last);
      }
    }
  }

  lemma EmptyBuilt(hostId: string)
    ensures Distinct([]) && Built(map[], hostId, [])
  {
  }

  lemma PartsDistinct(init: seq<Observation>, last: Observation)
    ensures Distinct(init + [last]) ==> Distinct(init) && last.sound && Guid(last).Some?
  {
    var all := init + [last];
    assert all[|init|] == last && forall i :: 0 <= i < |init| ==> all[i] == init[i];
  }

  /** Which snapshots are applied. */
  predicate Welcome(hosts: Registry, s: Snapshot) {
    && ValidHostId(s.hostId) && s.hostId in hosts && s.health.Some?
    && (s.health.value.Observed? ==> !s.failed && Distinct(s.machines))
  }

  ghost predicate InSnapshot(k: string, s: Snapshot)
    requires Distinct(s.machines)
  {
    exists i :: 0 <= i < |s.machines| && k == KeyOf(s.hostId, s.machines[i])
  }

  /** Each machine of the snapshot is shown as observed, under the aliases it had; any other of this host is stale. */
  ghost predicate Updated(index: Index, after: Index, s: Snapshot)
    requires Distinct(s.machines)
  {
    && after.Keys == index.Keys + (set i | 0 <= i < |s.machines| :: KeyOf(s.hostId, s.machines[i]))
    && (forall i :: 0 <= i < |s.machines| ==>
          var k := KeyOf(s.hostId, s.machines[i]);
          Shows(after[k], s.hostId, s.machines[i]) && after[k].aliases == if k in index then index[k].aliases else [])
    && forall k :: k in index && !InSnapshot(k, s) ==>
         after[k] == if index[k].locator.hostId == s.hostId then index[k].(status := Stale) else index[k]
  }

  /** A snapshot is applied exactly if it is welcome. If it is of an observed host, it updates that host's machines;
      otherwise they all take on the host's health. */
  lemma SnapshotDecides(hosts: Registry, index: Index, s: Snapshot)
    ensures var (after, ok) := Snapshotted(hosts, index, s);
            && (ok <==> Welcome(hosts, s))
            && (ok && s.health.value.Observed? ==> Updated(index, after, s))
            && (ok && !s.health.value.Observed? ==>
                  && after.Keys == index.Keys
                  && forall k :: k in index ==>
                       after[k] == if index[k].locator.hostId == s.hostId then index[k].(status := s.health.value) else index[k])
  {
    hide Distinct, Updated, BuildFrom, ValidHostId, Merged;
    if ValidHostId(s.hostId) {
      BuildsExactly(s.hostId, s.machines);
      if Distinct(s.machines) { MergedIsUpdated(index, s); }
    }
  }

  lemma MergedAt(index: Index, hostId: string, next: Index)
    ensures var after := Merged(index, hostId, next);
            && after.Keys == index.Keys + next.Keys
            && (forall k :: k in next ==> after[k] == if k in index then next[k].(aliases := index[k].aliases) else next[k])
            && forall k :: k in index && k !in next ==>
                 after[k] == if index[k].locator.hostId == hostId then index[k].(status := Stale) else index[k]
  {
  }

  lemma BuiltKeys(next: Index, s: Snapshot)
    requires Distinct(s.machines) && Built(next, s.hostId, s.machines)
    ensures next.Keys == set i | 0 <= i < |s.machines| :: KeyOf(s.hostId, s.machines[i])
    ensures forall k :: k in next <==> InSnapshot(k, s)
  {
    hide Shows, KeyOf, Distinct;
  }

  lemma MergedShows(index: Index, s: Snapshot, next: Index, i: nat)
    requires Distinct(s.machines) && Built(next, s.hostId, s.machines) && i < |s.machines|
    requires forall k :: k in next ==> next[k].aliases == []
    ensures var k, after := KeyOf(s.hostId, s.machines[i]), Merged(index, s.hostId, next);
            k in after && Shows(after[k], s.hostId, s.machines[i]) && after[k].aliases == if k in index then index[k].aliases else []
  {
    MergedAt(index, s.hostId, next);
    hide Merged, KeyOf, Distinct, Guid;
    var k := KeyOf(s.hostId, s.machines[i]);
    assert Shows(next[k], s.hostId, s.machines[i]);
  }

  lemma MergedIsUpdated(index: Index, s: Snapshot)
    requires ValidHostId(s.hostId) && Distinct(s.machines)
    ensures BuildFrom(s.hostId, s.machines).Some? && Updated(index, Merged(index, s.hostId, BuildFrom(s.hostId, s.machines).value), s)
  {
    hide BuildFrom, Shows, KeyOf, Guid, ValidHostId, Merged, Built, InSnapshot;
    BuildsExactly(s.hostId, s.machines);
    var next := BuildFrom(s.hostId, s.machines).value;
    MergedAt(index, s.hostId, next);
    BuiltKeys(next, s);
    NoAliases(s.hostId, s.machines);
    forall i | 0 <= i < |s.machines|
      ensures var k, after := KeyOf(s.hostId, s.machines[i]), Merged(index, s.hostId, next);
              Shows(after[k], s.hostId, s.machines[i]) && after[k].aliases == if k in index then index[k].aliases else []
    {
      MergedShows(index, s, next, i);
    }
  }

  lemma {:induction false} NoAliases(hostId: string, machines: seq<Observation>)
    requires BuildFrom(hostId, machines).Some?
    ensures var next := BuildFrom(hostId, machines).value; forall k :: k in next ==> next[k].aliases == []
  {
    BuiltOk(hostId, machines);
  }

  // ---------- The local host ----------

  /** Whatever hosts are given, the registry holds exactly them and the local one, which need not be given. */
  lemma LocalIsAlwaysThere(given: seq<Host>, r: Registry)
    requires HostsOk(WithAutomaticLocal(given)) && RegistryOf(WithAutomaticLocal(given), r)
    ensures LOCAL in r && r[LOCAL].address == LOCAL
    ensures forall i :: 0 <= i < |given| ==> given[i].id in r && r[given[i].id] == given[i]
    ensures forall id :: id in r && id != LOCAL ==> exists i :: 0 <= i < |given| && given[i].id == id
    ensures (forall i :: 0 <= i < |given| ==> given[i].id != LOCAL) ==> r[LOCAL] == Host(LOCAL, LOCAL, true, [], true)
  {
    hide Answers, AliasesOk;
    var hs := WithAutomaticLocal(given);
    var shift := |hs| - |given|;
    forall i | 0 <= i < |given| ensures given[i].id in r && r[given[i].id] == given[i] { assert hs[i + shift] == given[i]; }
    assert exists i :: 0 <= i < |hs| && hs[i].id == LOCAL by {
      if shift == 1 { assert hs[0].id == LOCAL; }
    }
    var local :| 0 <= local < |hs| && hs[local].id == LOCAL;
    assert HostOk(hs[local]);
    forall id | id in r && id != LOCAL ensures exists i :: 0 <= i < |given| && given[i].id == id {
      var i :| 0 <= i < |hs| && hs[i].id == id;
      assert hs[i] == given[i - shift];
    }
  }
}
