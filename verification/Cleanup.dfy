/**
 Removing the source vCenter from the cluster configuration. The identity of the source is recorded
 before the first removal, because afterwards the first vCenter of the list may be the destination; a
 crash can come between any two writes, and a retry may start from a stale copy of the status.
 */
module Cleanup {
  import opened FailureDomains

  datatype VCenter = VCenter(server: string, datacenters: set<string>)

  /** The vSphere part of the Infrastructure resource. */
  datatype Platform = Platform(vcenters: seq<VCenter>, failureDomains: seq<FailureDomain>)

  /** Infrastructure, cloud provider config by server, credential secret by key, and the recorded source ("" if none). */
  datatype Config = Config(platform: Option<Platform>, cloud: map<string, set<string>>, creds: map<string, string>, source: string)

  function UsernameKey(server: string): string { server + ".username" }

  function PasswordKey(server: string): string { server + ".password" }

  function WithoutServer(vcs: seq<VCenter>, server: string): (r: seq<VCenter>)
    ensures forall vc :: vc in r <==> vc in vcs && vc.server != server
    ensures |r| <= |vcs|
  {
    if vcs == [] then []
    else
      var front, last := vcs[..|vcs| - 1], vcs[|vcs| - 1];
      assert vcs == front + [last];
      WithoutServer(front, server) + (if last.server != server then [last] else [])
  }

  function OffServer(fds: seq<FailureDomain>, server: string): (r: seq<FailureDomain>)
    ensures forall fd :: fd in r <==> fd in fds && fd.server != server
  {
    if fds == [] then []
    else
      var front, last := fds[..|fds| - 1], fds[|fds| - 1];
      assert fds == front + [last];
      OffServer(front, server) + (if last.server != server then [last] else [])
  }

  function ServersOf(vcs: seq<VCenter>): (r: seq<string>)
    ensures |r| == |vcs| && forall i | 0 <= i < |vcs| :: r[i] == vcs[i].server
  {
    seq(|vcs|, i requires 0 <= i < |vcs| => vcs[i].server)
  }

  predicate IsTarget(destFDs: seq<FailureDomain>, server: string) {
    exists fd | fd in destFDs :: fd.server == server
  }

  // ----- Adding the targets -----

  predicate HasServer(vcs: seq<VCenter>, server: string) {
    exists vc | vc in vcs :: vc.server == server
  }

  /** The datacenters the failure domains use on one server. */
  function DatacentersOn(fds: seq<FailureDomain>, server: string): set<string> {
    set fd | fd in fds && fd.server == server :: fd.datacenter
  }

  /** Appends one entry for every target server that has none, in any order. */
  method AddTargetServers(vcs: seq<VCenter>, destFDs: seq<FailureDomain>) returns (r: seq<VCenter>)
    ensures vcs <= r
    ensures forall server :: HasServer(r, server) <==> HasServer(vcs, server) || IsTarget(destFDs, server)
    ensures forall i | |vcs| <= i < |r| :: IsTarget(destFDs, r[i].server) && !HasServer(vcs, r[i].server) && r[i].datacenters == DatacentersOn(destFDs, r[i].server)
    ensures forall i, dc | |vcs| <= i < |r| ::
              dc in r[i].datacenters <==> exists fd | fd in destFDs :: fd.server == r[i].server && fd.datacenter == dc
    ensures Distinct(ServersOf(vcs)) ==> Distinct(ServersOf(r))
    ensures (forall server | IsTarget(destFDs, server) :: HasServer(vcs, server)) ==> r == vcs
  {
    hide DatacentersOn, HasServer, IsTarget, ServersOf;
    r := vcs;
    var todo := set fd | fd in destFDs :: fd.server;
    TargetServers(destFDs);
    while todo != {}
      invariant vcs <= r
      invariant forall server | server in todo :: IsTarget(destFDs, server)
      invariant forall server :: HasServer(r, server) <==> HasServer(vcs, server) || (IsTarget(destFDs, server) && server !in todo)
      invariant forall i | |vcs| <= i < |r| :: IsTarget(destFDs, r[i].server) && !HasServer(vcs, r[i].server) && r[i].datacenters == DatacentersOn(destFDs, r[i].server)
      invariant Distinct(ServersOf(vcs)) ==> Distinct(ServersOf(r))
      invariant (forall server | IsTarget(destFDs, server) :: HasServer(vcs, server)) ==> r == vcs
      decreases |todo|
    {
      var server :| server in todo;
      todo := todo - {server};
      var known := FindServer(vcs, server);
      if !known {
        var entry := VCenter(server, DatacentersOn(destFDs, server));
        AppendServer(r, entry);
        r := r + [entry];
      }
    }
    forall i, dc | |vcs| <= i < |r|
      ensures dc in r[i].datacenters <==> exists fd | fd in destFDs :: fd.server == r[i].server && fd.datacenter == dc
    {
      ListedDatacenter(destFDs, r[i].server, dc);
    }
  }

  lemma TargetServers(fds: seq<FailureDomain>)
    ensures forall server :: server in (set fd | fd in fds :: fd.server) <==> IsTarget(fds, server)
  {
  }

  lemma ListedDatacenter(fds: seq<FailureDomain>, server: string, dc: string)
    ensures dc in DatacentersOn(fds, server) <==> exists fd | fd in fds :: fd.server == server && fd.datacenter == dc
  {
  }

  method FindServer(vcs: seq<VCenter>, server: string) returns (found: bool)
    ensures found <==> HasServer(vcs, server)
  {
    for i := 0 to |vcs|
      invariant forall k | 0 <= k < i :: vcs[k].server != server
    {
      if vcs[i].server == server {
        assert vcs[i] in vcs;
        return true;
      }
    }
    return false;
  }

  lemma AppendServer(vcs: seq<VCenter>, entry: VCenter)
    ensures forall server :: HasServer(vcs + [entry], server) <==> HasServer(vcs, server) || server == entry.server
    ensures !HasServer(vcs, entry.server) && Distinct(ServersOf(vcs)) ==> Distinct(ServersOf(vcs + [entry]))
  {
    var all := vcs + [entry];
    forall server ensures HasServer(all, server) <==> HasServer(vcs, server) || server == entry.server {
      if HasServer(vcs, server) {
        var vc :| vc in vcs && vc.server == server;
        assert vc in all;
      }
      if server == entry.server {
        assert all[|vcs|] in all;
      }
    }
    if !HasServer(vcs, entry.server) && Distinct(ServersOf(vcs)) {
      AppendDistinct(vcs, entry);
    }
  }

  /** Appends the target failure domains whose names are not taken by the existing ones, in order. */
  method AddTargetFailureDomains(fds: seq<FailureDomain>, destFDs: seq<FailureDomain>) returns (r: seq<FailureDomain>)
    ensures fds <= r
    ensures forall fd :: fd in r <==> fd in fds || (fd in destFDs && fd.name !in NamesOf(fds))
    ensures (forall fd | fd in destFDs :: fd.name in NamesOf(fds)) ==> r == fds
  {
    r := fds;
    for i := 0 to |destFDs|
      invariant fds <= r
      invariant forall fd :: fd in r <==> fd in fds || (fd in destFDs[..i] && fd.name !in NamesOf(fds))
      invariant (forall fd | fd in destFDs :: fd.name in NamesOf(fds)) ==> r == fds
    {
      assert destFDs[..i + 1] == destFDs[..i] + [destFDs[i]];
      if destFDs[i].name !in NamesOf(fds) {
        r := r + [destFDs[i]];
      }
    }
    assert destFDs[..|destFDs|] == destFDs;
  }

  // ----- Single writes and runs -----

  datatype Write = RecordSource(server: string) | RemoveVCenter | RemoveCloudEntry | RemoveCredentials

  predicate Allowed(destFDs: seq<FailureDomain>, c: Config, w: Write) {
    match w
    case RecordSource(server) => c.source == "" && server != "" && !IsTarget(destFDs, server)
    case RemoveVCenter =>
      && c.source != "" && c.platform.Some?
      && !(|c.platform.value.vcenters| == 1 && c.platform.value.vcenters[0].server == c.source)
    case RemoveCloudEntry => c.source != ""
    case RemoveCredentials => c.source != ""
  }

  function Apply(c: Config, w: Write): Config {
    match w
    case RecordSource(server) => c.(source := server)
    case RemoveVCenter =>
      if c.platform.None? then c
      else c.(platform := Some(Platform(
                            WithoutServer(c.platform.value.vcenters, c.source),
                            OffServer(c.platform.value.failureDomains, c.source))))
    case RemoveCloudEntry => c.(cloud := c.cloud - {c.source})
    case RemoveCredentials => c.(creds := c.creds - {UsernameKey(c.source), PasswordKey(c.source)})
  }

  ghost predicate Step(destFDs: seq<FailureDomain>, c: Config, d: Config) {
    exists w :: Allowed(destFDs, c, w) && d == Apply(c, w)
  }

  /** Any number of cleanup attempts, each cut off anywhere. */
  ghost predicate IsRun(destFDs: seq<FailureDomain>, run: seq<Config>) {
    && run != []
    && forall i | 0 <= i < |run| - 1 :: Step(destFDs, run[i], run[i + 1])
  }

  // ----- What every write keeps -----

  /** The recorded source, if any, is not a destination. */
  predicate SourceSafe(destFDs: seq<FailureDomain>, c: Config) {
    c.source != "" ==> !IsTarget(destFDs, c.source)
  }

  /** Everything that belongs to a destination server is still there. */
  ghost predicate TargetsKept(destFDs: seq<FailureDomain>, c: Config, d: Config) {
    && (c.platform.Some? ==>
          && d.platform.Some?
          && (forall vc | vc in c.platform.value.vcenters && IsTarget(destFDs, vc.server) :: vc in d.platform.value.vcenters)
          && (forall fd | fd in c.platform.value.failureDomains && IsTarget(destFDs, fd.server) :: fd in d.platform.value.failureDomains))
    && (forall s | s in c.cloud && IsTarget(destFDs, s) :: s in d.cloud && d.cloud[s] == c.cloud[s])
    && forall s | IsTarget(destFDs, s) :: SameEntry(c.creds, d.creds, UsernameKey(s)) && SameEntry(c.creds, d.creds, PasswordKey(s))
  }

  predicate SameEntry(a: map<string, string>, b: map<string, string>, key: string) {
    key in a ==> key in b && a[key] == b[key]
  }

  /** Once recorded, the source stays the same. */
  predicate SourceBound(c: Config, d: Config) {
    c.source != "" ==> d.source == c.source
  }

  /** Every vCenter entry names its server, as the API schema demands. */
  predicate Named(c: Config) {
    c.platform.Some? ==> forall vc | vc in c.platform.value.vcenters :: vc.server != ""
  }

  /** The vCenter list has distinct servers and is not empty. */
  predicate Listed(c: Config) {
    c.platform.Some? ==> c.platform.value.vcenters != [] && Distinct(ServersOf(c.platform.value.vcenters))
  }

  lemma KeysApart(a: string, b: string)
    requires a != b
    ensures UsernameKey(a) != UsernameKey(b) && PasswordKey(a) != PasswordKey(b)
    ensures UsernameKey(a) != PasswordKey(b) && PasswordKey(a) != UsernameKey(b)
    ensures UsernameKey(a) != PasswordKey(a) && UsernameKey(b) != PasswordKey(b)
  {
    assert UsernameKey(a)[..|a|] == a && UsernameKey(b)[..|b|] == b;
    assert PasswordKey(a)[..|a|] == a && PasswordKey(b)[..|b|] == b;
    LastLetter(a);
    LastLetter(b);
  }

  lemma LastLetter(server: string)
    ensures UsernameKey(server)[|server| + 8] == 'e' && PasswordKey(server)[|server| + 8] == 'd'
    ensures |UsernameKey(server)| == |server| + 9 && |PasswordKey(server)| == |server| + 9
  {
  }

  lemma CredentialsKept(destFDs: seq<FailureDomain>, creds: map<string, string>, source: string, s: string)
    requires IsTarget(destFDs, s) && !IsTarget(destFDs, source)
    ensures
      var left := creds - {UsernameKey(source), PasswordKey(source)};
      SameEntry(creds, left, UsernameKey(s)) && SameEntry(creds, left, PasswordKey(s))
  {
    hide UsernameKey, PasswordKey;
    KeysApart(s, source);
  }

  lemma WriteKeepsTargets(destFDs: seq<FailureDomain>, c: Config, w: Write)
    requires Allowed(destFDs, c, w) && SourceSafe(destFDs, c)
    ensures TargetsKept(destFDs, c, Apply(c, w))
  {
    hide UsernameKey, PasswordKey, IsTarget, WithoutServer, OffServer;
    if w.RemoveCredentials? {
      forall s | IsTarget(destFDs, s)
        ensures SameEntry(c.creds, Apply(c, w).creds, UsernameKey(s)) && SameEntry(c.creds, Apply(c, w).creds, PasswordKey(s))
      {
        CredentialsKept(destFDs, c.creds, c.source, s);
      }
    }
  }

  lemma StepKeeps(destFDs: seq<FailureDomain>, c: Config, d: Config)
    requires Step(destFDs, c, d) && SourceSafe(destFDs, c)
    ensures SourceSafe(destFDs, d) && SourceBound(c, d) && TargetsKept(destFDs, c, d)
    ensures Named(c) ==> Named(d)
  {
    hide UsernameKey, PasswordKey, IsTarget, TargetsKept, WithoutServer, OffServer;
    var w :| Allowed(destFDs, c, w) && d == Apply(c, w);
    WriteKeepsTargets(destFDs, c, w);
  }

  lemma {:induction false} WithoutDistinct(vcs: seq<VCenter>, server: string)
    requires Distinct(ServersOf(vcs))
    ensures Distinct(ServersOf(WithoutServer(vcs, server)))
    ensures |WithoutServer(vcs, server)| >= |vcs| - 1
    decreases |vcs|
  {
    if vcs != [] {
      hide ServersOf;
      var front, last := vcs[..|vcs| - 1], vcs[|vcs| - 1];
      LastServerFresh(vcs);
      WithoutDistinct(front, server);
      if last.server == server {
        OffListKept(front, server);
      } else {
        AppendDistinct(WithoutServer(front, server), last);
      }
    }
  }

  lemma LastServerFresh(vcs: seq<VCenter>)
    requires vcs != [] && Distinct(ServersOf(vcs))
    ensures
      var front, last := vcs[..|vcs| - 1], vcs[|vcs| - 1];
      Distinct(ServersOf(front)) && forall vc | vc in front :: vc.server != last.server
  {
    var front, last, servers := vcs[..|vcs| - 1], vcs[|vcs| - 1], ServersOf(vcs);
    assert ServersOf(front) == servers[..|front|];
    forall vc | vc in front ensures vc.server != last.server {
      var i :| 0 <= i < |front| && front[i] == vc;
      assert servers[i] != servers[|front|];
    }
  }

  lemma AppendDistinct(vcs: seq<VCenter>, last: VCenter)
    requires Distinct(ServersOf(vcs)) && forall vc | vc in vcs :: vc.server != last.server
    ensures Distinct(ServersOf(vcs + [last]))
  {
    var all := vcs + [last];
    forall i, j | 0 <= i < j < |all| ensures all[i].server != all[j].server {
      assert all[i] in vcs;
      assert j < |vcs| ==> ServersOf(vcs)[i] != ServersOf(vcs)[j];
    }
  }

  /** Nothing is filtered out of a list that does not mention the server. */
  lemma {:induction false} OffListKept(vcs: seq<VCenter>, server: string)
    requires forall vc | vc in vcs :: vc.server != server
    ensures WithoutServer(vcs, server) == vcs
    decreases |vcs|
  {
    if vcs != [] {
      var front, last := vcs[..|vcs| - 1], vcs[|vcs| - 1];
      assert vcs == front + [last] && last in vcs;
      forall vc | vc in front ensures vc.server != server {
        assert vc in vcs;
      }
      OffListKept(front, server);
    }
  }

  /** Removal empties the list exactly if it was empty or names the source alone, more than once. */
  lemma RemovalEmpties(vcs: seq<VCenter>, server: string)
    requires !(|vcs| == 1 && vcs[0].server == server)
    ensures WithoutServer(vcs, server) == [] <==>
              vcs == [] || (|vcs| >= 2 && forall vc | vc in vcs :: vc.server == server)
  {
    var r := WithoutServer(vcs, server);
    assert r != [] ==> r[0] in r;
    assert vcs != [] ==> vcs[0] in vcs;
  }

  lemma StepKeepsList(destFDs: seq<FailureDomain>, c: Config, d: Config)
    requires Step(destFDs, c, d) && Listed(c)
    ensures Listed(d)
  {
    hide IsTarget, UsernameKey, PasswordKey, ServersOf;
    var w :| Allowed(destFDs, c, w) && d == Apply(c, w);
    if w.RemoveVCenter? {
      WithoutDistinct(c.platform.value.vcenters, c.source);
    }
  }

  /**
   Cleanup is bound to the source: over any number of attempts, each interrupted anywhere, no entry of a
   destination server leaves the Infrastructure, the cloud config or the credentials, the recorded source
   is never a destination and never changes, and the vCenter list does not become empty.
   */
  lemma {:induction false} CleanupSafe(destFDs: seq<FailureDomain>, run: seq<Config>, i: nat, k: nat)
    requires IsRun(destFDs, run) && i <= k < |run| && SourceSafe(destFDs, run[i])
    ensures SourceSafe(destFDs, run[k]) && SourceBound(run[i], run[k]) && TargetsKept(destFDs, run[i], run[k])
    ensures Listed(run[i]) ==> Listed(run[k])
    decreases k
  {
    hide Step, IsTarget, Listed, UsernameKey, PasswordKey;
    if i < k {
      CleanupSafe(destFDs, run, i, k - 1);
      assert Step(destFDs, run[k - 1], run[k - 1 + 1]);
      StepKeeps(destFDs, run[k - 1], run[k]);
      if Listed(run[k - 1]) {
        StepKeepsList(destFDs, run[k - 1], run[k]);
      }
    }
  }

  /** No entry of that server is left anywhere. */
  ghost predicate Gone(c: Config, server: string) {
    && (c.platform.Some? ==>
          && (forall vc | vc in c.platform.value.vcenters :: vc.server != server)
          && (forall fd | fd in c.platform.value.failureDomains :: fd.server != server))
    && server !in c.cloud
    && UsernameKey(server) !in c.creds && PasswordKey(server) !in c.creds
  }

  /** d is c without the entries of server s, and with everything else. */
  ghost predicate CleanedOf(c: Config, d: Config, s: string) {
    && d.source == s
    && c.platform.Some? && d.platform.Some?
    && (forall vc :: vc in d.platform.value.vcenters <==> vc in c.platform.value.vcenters && vc.server != s)
    && (forall fd :: fd in d.platform.value.failureDomains <==> fd in c.platform.value.failureDomains && fd.server != s)
    && (forall k :: k in d.cloud <==> k in c.cloud && k != s)
    && (forall k | k in d.cloud :: d.cloud[k] == c.cloud[k])
    && (forall k :: k in d.creds <==> k in c.creds && k != s + ".username" && k != s + ".password")
    && forall k | k in d.creds :: d.creds[k] == c.creds[k]
  }

  /** The server an attempt is bound to: what the status records, and before that the first one listed. */
  function BoundTo(c: Config): string {
    if c.source == "" && c.platform.Some? && c.platform.value.vcenters != [] then c.platform.value.vcenters[0].server else c.source
  }

  /**
   An attempt that has not read the recorded source can still tell it: some vCenter is listed, and the first
   one is the recorded source, or a destination once a source is recorded, or anything else before.
   */
  ghost predicate Resolvable(destFDs: seq<FailureDomain>, c: Config, mine: string) {
    mine == "" ==>
      && c.platform.Some? && c.platform.value.vcenters != []
      && var first := c.platform.value.vcenters[0].server;
      if exists fd | fd in destFDs :: fd.server == first then c.source != "" else c.source == "" || c.source == first
  }

  // ----- The handler -----

  method KeepOtherVCenters(vcs: seq<VCenter>, server: string) returns (r: seq<VCenter>)
    ensures r == WithoutServer(vcs, server)
  {
    r := [];
    for i := 0 to |vcs|
      invariant r == WithoutServer(vcs[..i], server)
    {
      assert vcs[..i + 1][..i] == vcs[..i];
      if vcs[i].server != server {
        r := r + [vcs[i]];
      }
    }
    assert vcs[..|vcs|] == vcs;
  }

  method KeepOtherFailureDomains(fds: seq<FailureDomain>, server: string) returns (r: seq<FailureDomain>)
    ensures r == OffServer(fds, server)
  {
    r := [];
    for i := 0 to |fds|
      invariant r == OffServer(fds[..i], server)
    {
      assert fds[..i + 1][..i] == fds[..i];
      if fds[i].server != server {
        r := r + [fds[i]];
      }
    }
    assert fds[..|fds|] == fds;
  }

  datatype Outcome = Failed | Done

  class SourceCleanup {
    const destFDs: seq<FailureDomain>
    var config: Config
    ghost var history: seq<Config>
    /** API calls that failed, and status reads that were stale. */
    ghost var faults: nat

    ghost predicate Valid()
      reads this
    {
      && SourceSafe(destFDs, config) && Named(config)
      && IsRun(destFDs, history) && history[|history| - 1] == config
    }

    constructor (destFDs: seq<FailureDomain>, config: Config)
      requires SourceSafe(destFDs, config) && Named(config)
      ensures Valid() && this.config == config && this.destFDs == destFDs && history == [config]
    {
      this.destFDs, this.config, this.history, this.faults := destFDs, config, [config], 0;
    }

    method IsDestination(server: string) returns (r: bool)
      ensures r <==> IsTarget(destFDs, server)
    {
      for i := 0 to |destFDs|
        invariant forall k | 0 <= k < i :: destFDs[k].server != server
      {
        if destFDs[i].server == server {
          assert destFDs[i] in destFDs;
          return true;
        }
      }
      return false;
    }

    /** One API write behind its permission check; it may fail, and then nothing has changed. */
    method Submit(w: Write, permitted: bool) returns (ok: bool)
      requires Valid() && (permitted ==> Allowed(destFDs, config, w))
      modifies this
      ensures Valid() && old(history) <= history
      ensures config == if ok then Apply(old(config), w) else old(config)
      ensures ok ==> permitted
      ensures faults == old(faults) + (if permitted && !ok then 1 else 0)
    {
      hide Allowed, Apply, Named, SourceSafe;
      ok := *;
      ok := ok && permitted;
      if ok {
        assert Step(destFDs, config, Apply(config, w));
        StepKeeps(destFDs, config, Apply(config, w));
        config := Apply(config, w);
        history := history + [config];
      } else if permitted {
        faults := faults + 1;
      }
    }

    /** A call that changes nothing modelled here; it may fail. */
    method Call() returns (ok: bool)
      modifies this`faults
      ensures faults == old(faults) + (if ok then 0 else 1)
    {
      ok := *;
      if !ok {
        faults := faults + 1;
      }
    }

    /** Filters the vCenters and failure domains of the source out of the Infrastructure. */
    method RemoveSourceVCenter(server: string, permitted: bool) returns (ok: bool)
      requires Valid() && (permitted ==> config.source == server != "")
      modifies this
      ensures Valid() && old(history) <= history && config.source == old(config.source)
      ensures ok ==> permitted && config == Apply(old(config), RemoveVCenter) && config.platform.Some? && old(config).platform.Some?
      ensures !ok ==> config == old(config)
      ensures old(faults) <= faults
      ensures permitted && faults == old(faults) ==>
                (ok <==> old(config).platform.Some? && !(|old(config).platform.value.vcenters| == 1 && old(config).platform.value.vcenters[0].server == server))
    {
      hide Named, SourceSafe, IsRun, WithoutServer, OffServer;
      if config.platform.None? {
        return false;
      }
      var p := config.platform.value;
      if |p.vcenters| == 1 && p.vcenters[0].server == server {
        return false;
      }
      var vcenters := KeepOtherVCenters(p.vcenters, server);
      var fds := KeepOtherFailureDomains(p.failureDomains, server);
      assert permitted ==> Apply(config, RemoveVCenter) == config.(platform := Some(Platform(vcenters, fds)));
      ok := Submit(RemoveVCenter, permitted);
    }

    /**
     Binds this attempt to a source: the copy at hand, the first vCenter, or what the status records. An attempt
     whose object has been replaced records nothing in the new one, and goes on unbound.
     */
    method ResolveSource(mine: string, superseded: bool) returns (server: string, ok: bool)
      requires Valid() && (superseded || mine == "" || mine == config.source)
      modifies this
      ensures Valid() && old(history) <= history
      ensures config == old(config).(source := config.source) && (superseded ==> config == old(config))
      ensures ok ==> !IsTarget(destFDs, server) && (!superseded ==> config.source == server != "")
      ensures old(faults) <= faults
      ensures !superseded && faults == old(faults) ==> (ok <==> Resolvable(destFDs, old(config), mine))
      ensures ok && !superseded ==> Resolvable(destFDs, old(config), mine) && server == BoundTo(old(config))
    {
      hide Named, IsRun;
      server, ok := mine, false;
      if mine == "" {
        if config.platform.None? || config.platform.value.vcenters == [] {
          return;
        }
        server := config.platform.value.vcenters[0].server;
        NamedServers(config, 0);
        var target := IsDestination(server);
        if target {
          var stale: bool := *;
          var recorded := if stale then "" else config.source;
          if stale {
            faults := faults + 1;
          }
          if recorded == "" {
            return;
          }
          server := recorded;
        }
        if superseded {
        } else if config.source != "" {
          if config.source != server {
            return;
          }
        } else {
          ok := Submit(RecordSource(server), true);
          if !ok {
            return;
          }
        }
      }
      var target := IsDestination(server);
      ok := !target;
    }

    /**
     One attempt; it completes only when nothing of the source is left. If the migration object was replaced by
     then, every later permission check denies, and the attempt changes nothing.
     */
    method EnsureSourceCleaned(mine: string, superseded: bool) returns (out: Outcome)
      requires Valid() && (superseded || mine == "" || mine == config.source)
      modifies this
      ensures superseded ==> out.Failed? && config == old(config)
      ensures Valid() && old(history) <= history
      ensures TargetsKept(destFDs, old(config), config) && SourceBound(old(config), config)
      ensures Listed(old(config)) ==> Listed(config)
      ensures out.Done? ==> config.source != "" && Gone(config, config.source)
      ensures out.Done? ==> Resolvable(destFDs, old(config), mine) && CleanedOf(old(config), config, BoundTo(old(config)))
      ensures !superseded && faults == old(faults) ==>
                (out.Done? <==>
                   && Resolvable(destFDs, old(config), mine)
                   && old(config).platform.Some?
                   && !(|old(config).platform.value.vcenters| == 1 && old(config).platform.value.vcenters[0].server == BoundTo(old(config))))
    {
      hide Listed, Named, Step, IsTarget, UsernameKey, PasswordKey, TargetsKept, CleanedOf, Gone, Resolvable;
      ghost var before := |history| - 1;
      out := CleanBound(mine, superseded);
      if out.Done? {
        CleanedIsGone(old(config), config, config.source);
      }
      CleanupSafe(destFDs, history, before, |history| - 1);
    }

    method CleanBound(mine: string, superseded: bool) returns (out: Outcome)
      requires Valid() && (superseded || mine == "" || mine == config.source)
      modifies this
      ensures superseded ==> out.Failed? && config == old(config)
      ensures Valid() && old(history) <= history
      ensures out.Done? ==> Resolvable(destFDs, old(config), mine) && CleanedOf(old(config), config, BoundTo(old(config)))
      ensures out.Done? ==> config.source == BoundTo(old(config)) != ""
      ensures !superseded && faults == old(faults) ==>
                (out.Done? <==>
                   && Resolvable(destFDs, old(config), mine)
                   && old(config).platform.Some?
                   && !(|old(config).platform.value.vcenters| == 1 && old(config).platform.value.vcenters[0].server == BoundTo(old(config))))
    {
      hide Named, IsRun, IsTarget, SourceSafe, Resolvable, CleanedOf, BoundTo, Apply, Allowed;
      var server, ok := ResolveSource(mine, superseded);
      if !ok {
        return Failed;
      }
      ok := RemoveSourceVCenter(server, !superseded);
      if !ok {
        return Failed;
      }
      SourceKept(destFDs, config);
      ok := Submit(RemoveCloudEntry, true);
      if !ok {
        return Failed;
      }
      SourceKept(destFDs, config);
      ok := Submit(RemoveCredentials, true);
      if !ok {
        return Failed;
      }
      RemovedOf(old(config), config, server);
      var podsRestarted := Call();
      if !podsRestarted {
        return Failed;
      }
      var metadataSaved := Call();
      out := if metadataSaved then Done else Failed;
    }
  }

  lemma SourceKept(destFDs: seq<FailureDomain>, c: Config)
    requires c.source != ""
    ensures Allowed(destFDs, c, RemoveCloudEntry) && Apply(c, RemoveCloudEntry).source == c.source
    ensures Allowed(destFDs, c, RemoveCredentials) && Apply(c, RemoveCredentials).source == c.source
  {
  }

  /** The three removals together take out the source's entries and nothing else. */
  lemma RemovedOf(c: Config, d: Config, server: string)
    requires c.platform.Some?
    requires
      var bound := c.(source := server);
      d == Apply(Apply(Apply(bound, RemoveVCenter), RemoveCloudEntry), RemoveCredentials)
    ensures CleanedOf(c, d, server)
  {
    hide WithoutServer, OffServer;
  }

  lemma CleanedIsGone(c: Config, d: Config, s: string)
    requires CleanedOf(c, d, s)
    ensures Gone(d, s)
  {
  }

  lemma NamedServers(c: Config, i: nat)
    requires Named(c) && c.platform.Some? && i < |c.platform.value.vcenters|
    ensures c.platform.value.vcenters[i].server != ""
  {
    assert c.platform.value.vcenters[i] in c.platform.value.vcenters;
  }
}
