/**
 * The application metadata cache of package metadata: the published list
 * of apps, the two memoised totals over the started apps, the page handler
 * that builds a new list and the load that publishes it.
 */
module AppMetadata {
  import opened Wrappers
  import opened Paging

  const MEGABYTE: nat := 1024 * 1024

  /** The state value of an app that is running. */
  const STARTED: string := "STARTED"

  /**
   * App: the entity of a /v2/apps resource. The numeric fields the source
   * holds as float64 are naturals here, and the environment values are
   * kept as their text.
   */
  datatype App = App(
    guid: string,
    name: string,
    spaceGuid: string,
    spaceName: string,
    orgGuid: string,
    orgName: string,
    stackGuid: string,
    memoryMB: nat,
    diskQuotaMB: nat,
    environment: map<string, string>,
    instances: nat,
    state: string,
    enableSsh: bool,
    packageState: string,
    stagingFailedReason: string,
    stagingFailedDesc: string,
    detectedStartCmd: string,
    console: bool,
    buildpack: string,
    detectedBuildpack: string,
    healthcheckType: string,
    healthcheckTimeout: nat,
    production: bool)

  /** App{}: every field empty, zero or false. */
  function ZeroApp(): App {
    App("", "", "", "", "", "", "", 0, 0, map[], 0, "", false, "", "", "", "", false, "", "", "", 0, false)
  }

  function GuidOf(app: App): string {
    app.guid
  }

  /** The handler's reconciliation: the envelope's guid replaces the entity's, nothing else changes. */
  function WithGuid(app: App, guid: string): (r: App)
    ensures r.guid == guid
    ensures r.(guid := app.guid) == app
  {
    app.(guid := guid)
  }

  /**
   * FindAppMetadata's answer: the first app whose guid is `id`, or the zero
   * app when no app has that guid.
   */
  function Lookup(apps: seq<App>, id: string): (r: App)
    ensures (forall i | 0 <= i < |apps| :: apps[i].guid != id) ==> r == ZeroApp()
    ensures (exists i | 0 <= i < |apps| :: apps[i].guid == id) ==>
              exists k | 0 <= k < |apps| ::
                && apps[k] == r
                && r.guid == id
                && forall j | 0 <= j < k :: apps[j].guid != id
  {
    var i := IndexOf(apps, GuidOf, id);
    if i < |apps| then apps[i] else ZeroApp()
  }

  // ---------------------------------------------------------------------
  // Reserved memory and disk of the started apps
  // ---------------------------------------------------------------------

  /** Bytes of memory an app reserves: its memory quota in megabytes, times its instances. */
  function MemoryBytes(app: App): nat {
    app.memoryMB * MEGABYTE * app.instances
  }

  /** Bytes of disk an app reserves: its disk quota in megabytes, times its instances. */
  function DiskBytes(app: App): nat {
    app.diskQuotaMB * MEGABYTE * app.instances
  }

  /** Whether some app of the list is STARTED. */
  predicate AnyStarted(apps: seq<App>) {
    exists i | 0 <= i < |apps| :: apps[i].state == STARTED
  }

  /** The sum of `bytes` over the apps whose state is STARTED, in list order. */
  function StartedTotal(apps: seq<App>, bytes: App -> nat): (r: nat)
    ensures r == 0 || AnyStarted(apps)
  {
    if apps == [] then 0
    else StartedTotal(apps[..|apps| - 1], bytes) +
         (if apps[|apps| - 1].state == STARTED then bytes(apps[|apps| - 1]) else 0)
  }

  /** One step of a summing loop: the total over a prefix one app longer. */
  lemma StartedTotalStep(apps: seq<App>, index: nat, bytes: App -> nat)
    requires index < |apps|
    ensures StartedTotal(apps[..index + 1], bytes) ==
            StartedTotal(apps[..index], bytes) + (if apps[index].state == STARTED then bytes(apps[index]) else 0)
  {
    assert apps[..index + 1][..index] == apps[..index];
  }

  /** Reference definition, part one: the started apps, in order. */
  function OnlyStarted(apps: seq<App>): (r: seq<App>)
    ensures forall i | 0 <= i < |r| :: r[i].state == STARTED && r[i] in apps
    ensures forall i | 0 <= i < |apps| :: apps[i].state == STARTED ==> apps[i] in r
  {
    if apps == [] then []
    else if apps[0].state == STARTED then [apps[0]] + OnlyStarted(apps[1..])
    else OnlyStarted(apps[1..])
  }

  /** Reference definition, part two: the plain sum of `bytes` over a list. */
  function Total(apps: seq<App>, bytes: App -> nat): nat {
    if apps == [] then 0 else bytes(apps[0]) + Total(apps[1..], bytes)
  }

  lemma {:induction false} TotalConcat(a: seq<App>, b: seq<App>, bytes: App -> nat)
    ensures Total(a + b, bytes) == Total(a, bytes) + Total(b, bytes)
  {
    if a != [] {
      assert (a + b)[1..] == a[1..] + b;
      TotalConcat(a[1..], b, bytes);
    } else {
      assert a + b == b;
    }
  }

  lemma {:induction false} OnlyStartedSnoc(apps: seq<App>, app: App)
    ensures OnlyStarted(apps + [app]) == OnlyStarted(apps) + (if app.state == STARTED then [app] else [])
  {
    if apps == [] {
      assert apps + [app] == [app];
      assert [app][1..] == [];
    } else {
      assert (apps + [app])[0] == apps[0];
      assert (apps + [app])[1..] == apps[1..] + [app];
      OnlyStartedSnoc(apps[1..], app);
    }
  }

  /** The started total is the plain total of the started apps: other states contribute nothing. */
  lemma {:induction false} StartedTotalIsTotalOfStarted(apps: seq<App>, bytes: App -> nat)
    ensures StartedTotal(apps, bytes) == Total(OnlyStarted(apps), bytes)
  {
    if apps != [] {
      var front := apps[..|apps| - 1];
      var last := apps[|apps| - 1];
      assert apps == front + [last];
      StartedTotalIsTotalOfStarted(front, bytes);
      OnlyStartedSnoc(front, last);
      var tail := if last.state == STARTED then [last] else [];
      TotalConcat(OnlyStarted(front), tail, bytes);
      if last.state == STARTED {
        assert Total(tail, bytes) == bytes(last) + Total([], bytes);
      }
    }
  }

  // ---------------------------------------------------------------------
  // Building the list: the handleRequest closure of getAppMetadata
  // ---------------------------------------------------------------------

  /**
   * handleRequest: on a page that decodes, append every resource's entity,
   * with the envelope's guid, after what is already accumulated; on a page
   * that does not, return the decoder's error and add nothing.
   */
  method HandleRequest(acc: seq<App>, page: Page<App>) returns (next: seq<App>, err: Option<string>)
    ensures next == acc + PageEntities(page, WithGuid)
    ensures err == if page.Undecodable? then Some(page.reason) else None
  {
    match page {
      case Undecodable(reason) =>
        next := acc;
        err := Some(reason);
        assert acc + [] == acc;
      case Decoded(rs) =>
        next := acc;
        var index := 0;
        while index < |rs|
          invariant 0 <= index <= |rs|
          invariant next == acc + Reconciled(rs[..index], WithGuid)
        {
          var app := rs[index].entity.(guid := rs[index].meta.guid);
          ReconciledStep(rs, index, WithGuid);
          next := next + [app];
          index := index + 1;
        }
        assert rs[..index] == rs;
        err := None;
    }
  }

  /** After loading one page whose resources have distinct guids, the lookup finds each resource by its guid. */
  lemma {:induction false} LoadedPageLookup(rs: seq<Resource<App>>, k: nat)
    requires k < |rs|
    requires forall i, j | 0 <= i < j < |rs| :: rs[i].meta.guid != rs[j].meta.guid
    ensures Lookup(Accumulated([Decoded(rs)], WithGuid), rs[k].meta.guid) == WithGuid(rs[k].entity, rs[k].meta.guid)
  {
    var pages := [Decoded(rs)];
    var none: seq<Page<App>> := [];
    assert pages[..0] == none;
    var apps := Accumulated(pages, WithGuid);
    var r := Reconciled(rs, WithGuid);
    assert Accumulated(none, WithGuid) == [];
    assert PageEntities(pages[0], WithGuid) == r;
    assert apps == [] + r;
    assert [] + r == r;
    IndexOfDistinct(apps, GuidOf, k);
  }

  /** The package state: appsMetadataCache and the two memoised totals (0 means not yet computed). */
  class AppCache {
    var apps: seq<App>
    var totalMemory: nat
    var totalDisk: nat

    /** Each memo is either not yet computed (0) or the true total of the published list. */
    ghost predicate MemosSound()
      reads this
    {
      && (totalMemory == 0 || totalMemory == StartedTotal(apps, MemoryBytes))
      && (totalDisk == 0 || totalDisk == StartedTotal(apps, DiskBytes))
    }

    constructor ()
      ensures apps == [] && totalMemory == 0 && totalDisk == 0
      ensures MemosSound()
    {
      apps := [];
      totalMemory := 0;
      totalDisk := 0;
    }

    /** AllApps: the published list itself. */
    function AllApps(): seq<App>
      reads this
    {
      apps
    }

    function AppMetadataSize(): (n: nat)
      reads this
      ensures n == |AllApps()|
    {
      |apps|
    }

    /** FindAppMetadata: a front-to-back scan returning the first app with the guid. */
    method FindAppMetadata(id: string) returns (app: App)
      ensures app == Lookup(apps, id)
    {
      var index := 0;
      while index < |apps|
        invariant 0 <= index <= |apps|
        invariant forall j | 0 <= j < index :: apps[j].guid != id
      {
        if apps[index].guid == id {
          assert IndexOf(apps, GuidOf, id) == index;
          return apps[index];
        }
        index := index + 1;
      }
      assert IndexOf(apps, GuidOf, id) == |apps|;
      return ZeroApp();
    }

    /**
     * GetTotalMemoryAllStartedApps: when the memo is 0, add up the memory of
     * the started apps into it; then return the memo.
     */
    method GetTotalMemoryAllStartedApps() returns (total: nat)
      requires MemosSound()
      modifies this`totalMemory
      ensures old(totalMemory) == 0 ==> totalMemory == StartedTotal(apps, MemoryBytes)
      ensures old(totalMemory) != 0 ==> totalMemory == old(totalMemory)
      ensures total == totalMemory == StartedTotal(apps, MemoryBytes)
      ensures MemosSound()
    {
      if totalMemory == 0 {
        var index := 0;
        while index < |apps|
          invariant 0 <= index <= |apps|
          invariant totalMemory == StartedTotal(apps[..index], MemoryBytes)
        {
          StartedTotalStep(apps, index, MemoryBytes);
          if apps[index].state == STARTED {
            totalMemory := totalMemory + apps[index].memoryMB * MEGABYTE * apps[index].instances;
          }
          index := index + 1;
        }
        assert apps[..index] == apps;
      }
      return totalMemory;
    }

    /** GetTotalDiskAllStartedApps: the same memoised sum over the disk quotas. */
    method GetTotalDiskAllStartedApps() returns (total: nat)
      requires MemosSound()
      modifies this`totalDisk
      ensures old(totalDisk) == 0 ==> totalDisk == StartedTotal(apps, DiskBytes)
      ensures old(totalDisk) != 0 ==> totalDisk == old(totalDisk)
      ensures total == totalDisk == StartedTotal(apps, DiskBytes)
      ensures MemosSound()
    {
      if totalDisk == 0 {
        var index := 0;
        while index < |apps|
          invariant 0 <= index <= |apps|
          invariant totalDisk == StartedTotal(apps[..index], DiskBytes)
        {
          StartedTotalStep(apps, index, DiskBytes);
          if apps[index].state == STARTED {
            totalDisk := totalDisk + apps[index].diskQuotaMB * MEGABYTE * apps[index].instances;
          }
          index := index + 1;
        }
        assert apps[..index] == apps;
      }
      return totalDisk;
    }

    /**
     * getAppMetadata: hand every fetched page to the handler, then flush both
     * totals. The fetch's own error is not looked at: the result is always
     * the accumulated list with no error.
     */
    method GetAppMetadata(run: Run<App>) returns (data: seq<App>, err: Option<string>)
      modifies this`totalMemory, this`totalDisk
      ensures data == Accumulated(run.pages, WithGuid)
      ensures err == None
      ensures totalMemory == 0 && totalDisk == 0
      ensures MemosSound()
    {
      data := [];
      var index := 0;
      while index < |run.pages|
        invariant 0 <= index <= |run.pages|
        invariant data == Accumulated(run.pages[..index], WithGuid)
      {
        AccumulatedStep(run.pages, index, WithGuid);
        var next, pageErr := HandleRequest(data, run.pages[index]);
        data := next;
        index := index + 1;
      }
      assert run.pages[..index] == run.pages;
      totalMemory := 0;
      totalDisk := 0;
      err := None;
    }

    /**
     * LoadAppCache: publish the loaded list unless loading reported an error.
     * GetAppMetadata never reports one, so the early return is never taken:
     * the list is always replaced and the totals always flushed.
     */
    method LoadAppCache(run: Run<App>)
      modifies this
      ensures apps == Accumulated(run.pages, WithGuid)
      ensures totalMemory == 0 && totalDisk == 0
      ensures MemosSound()
    {
      var data, err := GetAppMetadata(run);
      if err.Some? {
        return;
      }
      apps := data;
    }
  }
}
