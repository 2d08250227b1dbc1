/**
 * The change cache of cache/cache.go: the last snapshot of addresses and config
 * modification time, kept in one file, and the decision whether DNS records need
 * reconciling at all.
 */
module ChangeCache {
  import opened Wrappers

  /** A snapshot; `modTime` is an instant, None where the source holds a nil *time.Time. */
  datatype Cache = Cache(ipv4: string, ipv6: string, modTime: Option<int>)

  /** `Cache{}`: what a missing cache file is initialised with. */
  const EmptyCache := Cache("", "", None)

  /** The message of the Go runtime panic raised by dereferencing a nil pointer. */
  const NilDereference := "runtime error: invalid memory address or nil pointer dereference"

  /**
   * `cache.NeedUpdate(ipv4, ipv6, modTime)`. The mod-times are compared only when both
   * addresses match (`&&` short-circuits), and both pointers are then dereferenced.
   */
  function NeedUpdate(cache: Cache, ipv4: string, ipv6: string, modTime: Option<int>): (r: Eval<bool>)
    ensures r == Returns(false) <==> cache == Cache(ipv4, ipv6, modTime) && modTime.Some?
    ensures r == Returns(true) <==>
              cache.ipv4 != ipv4 || cache.ipv6 != ipv6 ||
              (cache.modTime.Some? && modTime.Some? && cache.modTime != modTime)
    ensures r.Panics? <==> cache.ipv4 == ipv4 && cache.ipv6 == ipv6 && (cache.modTime.None? || modTime.None?)
  {
    if !(cache.ipv4 == ipv4 && cache.ipv6 == ipv6) then Returns(true)
    else if cache.modTime.None? || modTime.None? then Panics(NilDereference)
    else Returns(cache.modTime.value != modTime.value)
  }

  /** The address a family contributes to the candidate snapshot: "" when it is disabled. */
  function Candidate(enabled: bool, lookup: Result<string>): (r: Result<string>)
    ensures !enabled ==> r == Ok("")
    ensures enabled ==> r == lookup
  {
    if enabled then lookup else Ok("")
  }

  /** The named results `(updated bool, err error)` of `Cache.Update`. */
  datatype UpdateResult = UpdateResult(updated: bool, err: Option<string>)

  /**
   * The cache file at its fixed path. `disk` is its decoded content, None when it does not
   * exist; `readFault` is the error reading or decoding an existing file reports, and
   * `writeFault` the error a write reports.
   */
  class CacheFile {
    var disk: Option<Cache>
    var readFault: Option<string>
    var writeFault: Option<string>

    constructor (disk: Option<Cache>, readFault: Option<string>, writeFault: Option<string>)
      ensures this.disk == disk && this.readFault == readFault && this.writeFault == writeFault
    {
      this.disk, this.readFault, this.writeFault := disk, readFault, writeFault;
    }

    /** `os.WriteFile`: a whole-file replace, or an error that leaves the file as it was. */
    method Write(c: Cache) returns (err: Option<string>)
      modifies this`disk
      ensures err == writeFault
      ensures disk == if writeFault.None? then Some(c) else old(disk)
    {
      err := writeFault;
      if writeFault.None? {
        disk := Some(c);
      }
    }

    /** `Load()`: read the snapshot, creating the file with an empty one when it is missing. */
    method Load() returns (r: Result<Cache>)
      modifies this`disk
      ensures old(disk).None? && writeFault.None? ==> r == Ok(EmptyCache) && disk == Some(EmptyCache)
      ensures old(disk).None? && writeFault.Some? ==> r == Err(writeFault.value) && disk == None
      ensures old(disk).Some? && readFault.Some? ==> r == Err(readFault.value) && disk == old(disk)
      ensures old(disk).Some? && readFault.None? ==> r == Ok(old(disk).value) && disk == old(disk)
    {
      if disk.None? {
        var err := Write(EmptyCache);
        if err.Some? {
          return Err(err.value);
        }
        return Ok(EmptyCache);
      }
      if readFault.Some? {
        return Err(readFault.value);
      }
      return Ok(disk.value);
    }

    /**
     * `cache.Update(config, modTime, enableIPv4, enableIPv6)`, with the two address lookups
     * given as their results. `cache` is a value: the source rebinds only a local pointer,
     * so the caller's snapshot is never changed.
     */
    method Update(cache: Cache, lookupIPv4: Result<string>, lookupIPv6: Result<string>, modTime: Option<int>,
                  enableIPv4: bool, enableIPv6: bool) returns (r: Eval<UpdateResult>)
      modifies this`disk
      ensures Candidate(enableIPv4, lookupIPv4).Err? ==>
                r == Returns(UpdateResult(false, Some(lookupIPv4.error))) && disk == old(disk)
      ensures Candidate(enableIPv4, lookupIPv4).Ok? && Candidate(enableIPv6, lookupIPv6).Err? ==>
                r == Returns(UpdateResult(false, Some(lookupIPv6.error))) && disk == old(disk)
      ensures Candidate(enableIPv4, lookupIPv4).Ok? && Candidate(enableIPv6, lookupIPv6).Ok? ==>
                var next := Cache(Candidate(enableIPv4, lookupIPv4).value, Candidate(enableIPv6, lookupIPv6).value, modTime);
                match NeedUpdate(cache, next.ipv4, next.ipv6, modTime)
                case Panics(reason) => r == Panics(reason) && disk == old(disk)
                case Returns(need) =>
                  if need then r == Returns(UpdateResult(true, writeFault)) &&
                               disk == (if writeFault.None? then Some(next) else old(disk))
                  else r == Returns(UpdateResult(false, None)) && disk == old(disk)
    {
      var ipv4Address := "";
      if enableIPv4 {
        if lookupIPv4.Err? {
          return Returns(UpdateResult(false, Some(lookupIPv4.error)));
        }
        ipv4Address := lookupIPv4.value;
      }

      var ipv6Address := "";
      if enableIPv6 {
        if lookupIPv6.Err? {
          return Returns(UpdateResult(false, Some(lookupIPv6.error)));
        }
        ipv6Address := lookupIPv6.value;
      }

      var need := NeedUpdate(cache, ipv4Address, ipv6Address, modTime);
      if need.Panics? {
        return Panics(need.reason);
      }
      if !need.value {
        return Returns(UpdateResult(false, None));
      }

      var updated := true;
      var err := Write(Cache(ipv4Address, ipv6Address, modTime));
      return Returns(UpdateResult(updated, err));
    }
  }

  /**
   * Two runs without a config file, so with a nil mod-time. The first finds no cache file,
   * gets the empty snapshot from Load, and writes the new one; the second loads that
   * snapshot, resolves the same addresses and dereferences the nil mod-time.
   */
  method SecondRunPanics(file: CacheFile, lookupIPv4: Result<string>, lookupIPv6: Result<string>, enableIPv6: bool)
    returns (first: Eval<UpdateResult>, second: Eval<UpdateResult>)
    requires file.disk.None? && file.readFault.None? && file.writeFault.None?
    requires lookupIPv4.Ok? && lookupIPv4.value != ""
    requires enableIPv6 ==> lookupIPv6.Ok?
    modifies file
    ensures first == Returns(UpdateResult(true, None))
    ensures file.disk == Some(Cache(lookupIPv4.value, Candidate(enableIPv6, lookupIPv6).value, None))
    ensures second == Panics(NilDereference)
  {
    var loaded := file.Load();
    first := file.Update(loaded.value, lookupIPv4, lookupIPv6, None, true, enableIPv6);
    loaded := file.Load();
    second := file.Update(loaded.value, lookupIPv4, lookupIPv6, None, true, enableIPv6);
  }

  /** After a rewrite the file holds exactly the candidate snapshot, so the next Load returns it. */
  method UpdateThenLoad(file: CacheFile, cache: Cache, lookupIPv4: Result<string>, lookupIPv6: Result<string>,
                        modTime: Option<int>, enableIPv4: bool, enableIPv6: bool)
    returns (first: Eval<UpdateResult>, second: Result<Cache>)
    requires file.readFault.None? && file.writeFault.None?
    modifies file
    ensures first.Returns? && first.value.updated ==>
              Candidate(enableIPv4, lookupIPv4).Ok? && Candidate(enableIPv6, lookupIPv6).Ok?
    ensures first.Returns? && first.value.updated ==>
              second == Ok(Cache(Candidate(enableIPv4, lookupIPv4).value, Candidate(enableIPv6, lookupIPv6).value, modTime))
    ensures first.Returns? && !first.value.updated && old(file.disk).Some? ==> second == Ok(old(file.disk).value)
  {
    first := file.Update(cache, lookupIPv4, lookupIPv6, modTime, enableIPv4, enableIPv6);
    second := file.Load();
  }
}
