/** The DYAD interposition layer of src/wrapper/wrapper.c as the C code runs
    it: a per-thread context object whose fields the calls update, and a
    host that records every call made to the outside world and holds the
    environment. Each method is proved to do exactly what the function of
    the same name in WrapperSpec describes. */
module Wrapper {
  import opened Options
  import opened PathKeys
  import opened WrapperSpec

  /** The process around the wrapper: the calls made so far, in order, and
      the environment variables. */
  class Host {
    var trace: seq<Event>
    var env: Env

    constructor (env: Env)
      ensures trace == [] && this.env == env
    {
      trace := [];
      this.env := env;
    }
  }

  /** Reads gen_path_key's buffer as C does: the characters before the
      first NUL. */
  method ReadCString(buf: array<char>) returns (s: string)
    requires '\0' in buf[..]
    ensures |s| < buf.Length && s == buf[..|s|] && buf[|s|] == '\0' && '\0' !in s
  {
    var i := 0;
    while buf[i] != '\0'
      invariant 0 <= i < buf.Length
      invariant '\0' !in buf[..i]
      invariant '\0' in buf[i..]
      decreases buf.Length - i
    {
      assert buf[i..] == [buf[i]] + buf[i + 1..];
      assert buf[..i + 1] == buf[..i] + [buf[i]];
      i := i + 1;
    }
    s := buf[..i];
  }

  /** The topic buffer of subscribe_via_flux and publish_via_flux: PATH_MAX + 1
      zeroed characters, filled by gen_path_key with len PATH_MAX, whose
      result code is not looked at. */
  method ComputeTopic(userPath: CStr, depth: uint32, bins: uint32, hash: HashFn) returns (topic: string)
    requires ModuloDefined(depth as nat, bins)
    ensures topic == Cut(PathKey(userPath, depth, bins, hash), PATH_MAX)
  {
    var buf := new char[PATH_MAX + 1](_ => '\0');
    ghost var orig := buf[..];
    var keyRc := GenPathKey(userPath, buf, PATH_MAX, depth, bins, hash);
    ghost var key := PathKey(userPath, depth, bins, hash);
    ghost var cut := Cut(key, PATH_MAX);
    RenderHasNoNul(Bins(userPath, depth, bins, hash));
    assert cut == key[..|cut|];
    assert '\0' !in cut by {
      forall i | 0 <= i < |cut| ensures cut[i] != '\0' {
        assert cut[i] == key[i];
      }
    }
    assert buf[..] == Terminated(cut, orig);
    assert buf[|cut|] == '\0';
    topic := ReadCString(buf);
    FirstNul(buf[..], topic, cut);
  }

  /** Two NUL-free prefixes of one buffer, each followed by a NUL, are the
      same string. */
  lemma FirstNul(b: seq<char>, s: string, t: string)
    requires |s| < |b| && b[..|s|] == s && b[|s|] == '\0' && '\0' !in s
    requires |t| < |b| && b[..|t|] == t && b[|t|] == '\0' && '\0' !in t
    ensures s == t
  {
  }

  /** The end of subscribe_via_flux: the directory, then the file written
      through the real fopen, fwrite and the real fclose. */
  method WriteFetched(filePath: CStr, fileData: Bytes, host: Host, w: World) returns (rc: int)
    modifies host
    ensures host.env == old(host.env)
    ensures rc == Store(filePath, fileData, w).rc
    ensures host.trace == old(host.trace) + Store(filePath, fileData, w).events
  {
    rc := -1;
    var odir := w.dirname(filePath);
    if !SkipsMkdir(odir) {
      host.trace := host.trace + [MakeDirsCall(odir)];
      if !w.mkdirOk(odir) {
        return;
      }
    }
    rc := WriteFile(filePath, fileData, host, w);
  }

  /** The file write of subscribe_via_flux: fopen_real in mode "w", fwrite
      of the fetched bytes, fclose_real. */
  method WriteFile(filePath: CStr, fileData: Bytes, host: Host, w: World) returns (rc: int)
    modifies host
    ensures host.env == old(host.env)
    ensures rc == Written(filePath, fileData, w).rc
    ensures host.trace == old(host.trace) + Written(filePath, fileData, w).events
  {
    rc := -1;
    if !w.symOk {
      return;
    }
    var of := w.realFopen(filePath, "w");
    host.trace := host.trace + [FopenCall(filePath, "w")];
    if of.None? {
      return;
    }
    host.trace := host.trace + [FwriteCall(of.value, fileData)];
    if !w.fwriteOk(of.value, fileData) {
      return;
    }
    var closed := w.realFclose(of.value);
    host.trace := host.trace + [FcloseCall(of.value)];
    rc := if closed == 0 then 0 else -1;
  }

  /** dyad_sync_ctx_t: the per-thread context. */
  class SyncContext {
    var initialized: bool
    var debug: bool
    var check: bool
    var sharedStorage: bool
    var keyDepth: uint32
    var keyBins: uint32
    var kvsNamespace: Option<CStr>
    var rank: uint32
    var hasHandle: bool
    var reenter: bool

    function Record(): CtxRecord
      reads this
    {
      CtxRecord(initialized, debug, check, sharedStorage, keyDepth, keyBins,
                kvsNamespace, rank, hasHandle, reenter)
    }

    /** malloc followed by `*ctx = dyad_sync_ctx_t_default`. */
    constructor (r: CtxRecord)
      ensures Record() == r
    {
      initialized, debug, check, sharedStorage := r.initialized, r.debug, r.check, r.sharedStorage;
      keyDepth, keyBins, kvsNamespace, rank := r.keyDepth, r.keyBins, r.kvsNamespace, r.rank;
      hasHandle, reenter := r.hasHandle, r.reenter;
    }

    /** Struct assignment `*ctx = r`. */
    method Assign(r: CtxRecord)
      modifies this
      ensures Record() == r
    {
      initialized, debug, check, sharedStorage := r.initialized, r.debug, r.check, r.sharedStorage;
      keyDepth, keyBins, kvsNamespace, rank := r.keyDepth, r.keyBins, r.kvsNamespace, r.rank;
      hasHandle, reenter := r.hasHandle, r.reenter;
    }

    /** The settings dyad_sync_init reads from the environment, with the
        reentrancy guard raised. */
    method ReadSettings(env: Env, w: World)
      modifies this
      ensures Record() == old(Record()).(
        debug := SyncDebug in env,
        check := SyncCheck in env,
        sharedStorage := SharedStorage in env,
        keyDepth := KeySetting(env, KeyDepth, 3, w),
        keyBins := KeySetting(env, KeyBins, 1024, w),
        reenter := true,
        kvsNamespace := if KvsNamespace in env then Some(env[KvsNamespace]) else None)
    {
      debug := SyncDebug in env;
      check := SyncCheck in env;
      sharedStorage := SharedStorage in env;
      keyDepth := KeySetting(env, KeyDepth, 3, w);
      keyBins := KeySetting(env, KeyBins, 1024, w);
      reenter := true;
      kvsNamespace := if KvsNamespace in env then Some(env[KvsNamespace]) else None;
    }

    /** The end of dyad_sync_init: flux_open, flux_get_rank when a handle was
        obtained, and the initialised mark. */
    method ConnectFlux(w: World)
      modifies this
      ensures Record() == old(Record()).(
        hasHandle := w.fluxOpenOk,
        rank := if w.fluxOpenOk && w.fluxRank.Some? then w.fluxRank.value else old(rank),
        initialized := true)
    {
      hasHandle := w.fluxOpenOk;
      if hasHandle && w.fluxRank.Some? {
        rank := w.fluxRank.value;
      }
      initialized := true;
    }

    /** subscribe_via_flux (consumer_path, user_path): look up the owner of
        the path's key and, when it is another rank without shared storage,
        fetch the file and write it under the consumer prefix. It runs only
        with the reentrancy guard down. */
    method SubscribeViaFlux(consumerPath: CStr, userPath: CStr, host: Host, w: World) returns (rc: int)
      requires KeyDefined(Record()) && !reenter
      modifies host
      ensures host.env == old(host.env)
      ensures rc == Subscription(Record(), consumerPath, userPath, w).rc
      ensures host.trace == old(host.trace) + Subscription(Record(), consumerPath, userPath, w).events
    {
      rc := -1;
      var topic := ComputeTopic(userPath, keyDepth, keyBins, w.hash);
      if !hasHandle {
        return;
      }
      host.trace := host.trace + [KvsLookupCall(kvsNamespace, topic)];
      var found := w.kvsLookup(kvsNamespace, topic);
      if found.None? {
        return;
      }
      var ownerRank := found.value;
      if sharedStorage || ownerRank == rank {
        rc := 0;
        return;
      }
      var reply := w.rpcFetch(ownerRank, userPath);
      host.trace := host.trace + [RpcFetchCall(ownerRank, userPath)];
      if reply.PackFailed? {
        return;
      }
      if reply.GetFailed? {
        return;
      }
      rc := WriteFetched(w.joinPath(consumerPath, userPath), reply.bytes, host, w);
    }

    /** publish_via_flux (producer_path, user_path): commit the record
        "the path's key is owned by this rank". It runs only with the
        reentrancy guard down. */
    method PublishViaFlux(producerPath: CStr, userPath: CStr, host: Host, w: World) returns (rc: int)
      requires KeyDefined(Record()) && !reenter
      modifies host
      ensures host.env == old(host.env)
      ensures rc == Publication(Record(), userPath, w).rc
      ensures host.trace == old(host.trace) + Publication(Record(), userPath, w).events
    {
      rc := -1;
      var topic := ComputeTopic(userPath, keyDepth, keyBins, w.hash);
      if !hasHandle {
        return;
      }
      if !w.txnCreateOk {
        return;
      }
      if !w.txnPackOk(topic, rank) {
        return;
      }
      host.trace := host.trace + [KvsCommitCall(kvsNamespace, topic, rank)];
      if !w.commitOk(kvsNamespace, topic) {
        return;
      }
      rc := 0;
    }

    /** dyad_open_sync: the consumer protocol with the guard lowered, then
        raised; its code is returned unchanged. */
    method DyadOpenSync(path: CStr, dyadPath: CStr, userPath: CStr, host: Host, w: World) returns (rc: int)
      requires KeyDefined(Record())
      modifies this, host
      ensures Record() == old(Record()).(reenter := true)
      ensures host.env == old(host.env)
      ensures rc == Subscription(old(Record()), dyadPath, userPath, w).rc
      ensures host.trace == old(host.trace) + Subscription(old(Record()), dyadPath, userPath, w).events
    {
      reenter := false;
      rc := SubscribeViaFlux(dyadPath, userPath, host, w);
      reenter := true;
    }

    /** dyad_close_sync: the producer protocol with the guard lowered, then
        raised; its code is returned unchanged. */
    method DyadCloseSync(path: CStr, dyadPath: CStr, userPath: CStr, host: Host, w: World) returns (rc: int)
      requires KeyDefined(Record())
      modifies this, host
      ensures Record() == old(Record()).(reenter := true)
      ensures host.env == old(host.env)
      ensures rc == Publication(old(Record()), userPath, w).rc
      ensures host.trace == old(host.trace) + Publication(old(Record()), userPath, w).events
    {
      reenter := false;
      rc := PublishViaFlux(dyadPath, userPath, host, w);
      reenter := true;
    }

    /** open_sync (path). */
    method OpenSync(path: CStr, host: Host, w: World) returns (rc: int)
      requires InPrefix(host.env, PathConsumer, path, w) ==> KeyDefined(Record())
      modifies this, host
      ensures var s := OpenSyncSpec(old(Record()), old(host.env), path, w);
        && rc == s.rc
        && host.trace == old(host.trace) + s.events
        && host.env == s.env
        && Record() == if s.ran then old(Record()).(reenter := true) else old(Record())
    {
      rc := 0;
      if PathConsumer in host.env {
        var dyadPath := host.env[PathConsumer];
        var upath := w.canonPrefix(dyadPath, path);
        if upath.Some? {
          rc := DyadOpenSync(path, dyadPath, upath.value, host, w);
        }
      }
      if rc == 0 && check {
        host.env := host.env[CheckStatus := "ok"];
        host.trace := host.trace + [SetEnvCall(CheckStatus, "ok")];
      }
    }

    /** close_sync (path). */
    method CloseSync(path: CStr, host: Host, w: World) returns (rc: int)
      requires InPrefix(host.env, PathProducer, path, w) ==> KeyDefined(Record())
      modifies this, host
      ensures var s := CloseSyncSpec(old(Record()), old(host.env), path, w);
        && rc == s.rc
        && host.trace == old(host.trace) + s.events
        && host.env == s.env
        && Record() == if s.ran then old(Record()).(reenter := true) else old(Record())
    {
      rc := 0;
      if PathProducer in host.env {
        var dyadPath := host.env[PathProducer];
        var upath := w.canonPrefix(dyadPath, path);
        if upath.Some? {
          rc := DyadCloseSync(path, dyadPath, upath.value, host, w);
        }
      }
      if rc == 0 && check {
        host.env := host.env[CheckStatus := "ok"];
        host.trace := host.trace + [SetEnvCall(CheckStatus, "ok")];
      }
    }

    /** sync_directory (path): the guard is saved, lowered for the real
        open, fsync and close of the containing directory, and restored to
        the saved value on every path. */
    method SyncDirectory(path: CStr, host: Host, w: World) returns (rc: int)
      modifies this, host
      ensures Record() == old(Record())
      ensures host.env == old(host.env)
      ensures rc == DirSync(path, w).rc
      ensures host.trace == old(host.trace) + DirSync(path, w).events
    {
      var pathCopy := PathCopy(path);
      var odir := w.dirname(pathCopy);
      var saved := reenter;
      reenter := false;
      rc := FlushDirectory(path, odir, host, w);
      reenter := saved;
    }

    /** The three real calls of sync_directory on the directory odir of
        path. They are made only with the guard down, so none of them is
        synchronised itself, and they leave the context alone. */
    method FlushDirectory(ghost path: CStr, odir: CStr, host: Host, w: World) returns (rc: int)
      requires !reenter && odir == DirOf(path, w)
      modifies host
      ensures host.env == old(host.env)
      ensures rc == DirSync(path, w).rc
      ensures host.trace == old(host.trace) + DirSync(path, w).events
    {
      rc := 0;
      var odirFd := -1;
      if w.symOk {
        odirFd := w.realOpen(odir, O_RDONLY, 0);
        host.trace := host.trace + [OpenCall(odir, O_RDONLY, 0)];
      }
      if odirFd < 0 {
        rc := -1;
      } else {
        host.trace := host.trace + [FsyncCall(odirFd)];
        if w.fsync(odirFd) < 0 {
          rc := -1;
        }
        host.trace := host.trace + [CloseCall(odirFd)];
        if w.realClose(odirFd) < 0 {
          rc := -1;
        }
      }
    }
  }

  /** The value of the thread's context pointer, if it is not NULL. */
  function Snapshot(ctx: SyncContext?): Option<CtxRecord>
    reads ctx
  {
    if ctx == null then None else Some(ctx.Record())
  }

  /** dyad_sync_init: keep an initialised context, reset a stale one to the
      defaults, or build a new one from the environment and Flux. */
  method SyncInit(ctx: SyncContext?, host: Host, w: World, defaults: CtxRecord) returns (c: SyncContext)
    modifies ctx
    ensures ctx != null ==> c == ctx && c.Record() == ReinitRecord(old(ctx.Record()), defaults)
    ensures ctx == null ==> fresh(c) && c.Record() == InitialRecord(host.env, w, defaults)
  {
    if ctx != null {
      if !ctx.initialized {
        ctx.Assign(defaults);
      }
      return ctx;
    }
    c := NewContext(host.env, w, defaults);
  }

  /** The branch of dyad_sync_init that allocates: the default record, then
      the settings read from the environment, then Flux. */
  method NewContext(env: Env, w: World, defaults: CtxRecord) returns (c: SyncContext)
    ensures fresh(c) && c.Record() == InitialRecord(env, w, defaults)
  {
    c := new SyncContext(defaults);
    c.ReadSettings(env, w);
    c.ConnectFlux(w);
  }

  /** The interposed open (path, oflag, ...). */
  method Open(ctx: SyncContext?, host: Host, path: CStr, oflag: bv32, modeArg: int, w: World) returns (fd: int)
    requires OpenDefined(Snapshot(ctx), host.env, path, oflag, modeArg, w)
    modifies ctx, host
    ensures Snapshot(ctx) == old(Snapshot(ctx))
    ensures var s := OpenSpec(old(Snapshot(ctx)), old(host.env), path, oflag, modeArg, w);
      fd == s.result && host.trace == old(host.trace) + s.events && host.env == s.env
  {
    var mode := 0;
    if oflag & O_CREAT != 0 {
      mode := modeArg;
    }
    if !w.symOk {
      return -1;
    }
    assert mode == OpenMode(oflag, modeArg);
    if mode == 0 && !w.isPathDir(path) && ctx != null && ctx.hasHandle && ctx.reenter {
      assert OpenApplies(Snapshot(ctx), path, oflag, modeArg, w);
      var syncRc := ctx.OpenSync(path, host, w);
    }
    fd := w.realOpen(path, oflag, mode);
    host.trace := host.trace + [OpenCall(path, oflag, mode)];
  }

  /** The interposed fopen (path, mode). */
  method Fopen(ctx: SyncContext?, host: Host, path: CStr, mode: CStr, w: World) returns (fp: Option<Stream>)
    requires FopenDefined(Snapshot(ctx), host.env, path, mode, w)
    modifies ctx, host
    ensures Snapshot(ctx) == old(Snapshot(ctx))
    ensures var s := FopenSpec(old(Snapshot(ctx)), old(host.env), path, mode, w);
      fp == s.result && host.trace == old(host.trace) + s.events && host.env == s.env
  {
    if !w.symOk {
      return None;
    }
    if mode == "r" && !w.isPathDir(path) && ctx != null && ctx.hasHandle && ctx.reenter {
      var syncRc := ctx.OpenSync(path, host, w);
    }
    fp := w.realFopen(path, mode);
    host.trace := host.trace + [FopenCall(path, mode)];
  }

  /** The directory barrier of close and fclose, compiled in with
      DYAD_SYNC_DIR. */
  method Barrier(ctx: SyncContext?, host: Host, target: Option<CStr>, w: World)
    requires target.Some? ==> ctx != null
    modifies ctx, host
    ensures Snapshot(ctx) == old(Snapshot(ctx))
    ensures host.env == old(host.env)
    ensures host.trace == old(host.trace) + DirBarrier(target, w)
  {
    if w.syncDir && target.Some? {
      var dirRc := ctx.SyncDirectory(target.value, host, w);
    }
  }

  /** The `real_call` part of close: fsync of the descriptor, the directory
      barrier for a found target, then the real close. */
  method FlushAndClose(ctx: SyncContext?, host: Host, fd: int, target: Option<CStr>, w: World) returns (rc: int)
    requires target.Some? ==> ctx != null
    modifies ctx, host
    ensures Snapshot(ctx) == old(Snapshot(ctx))
    ensures host.env == old(host.env)
    ensures rc == w.realClose(fd)
    ensures host.trace == old(host.trace) + ([FsyncCall(fd)] + DirBarrier(target, w) + [CloseCall(fd)])
  {
    host.trace := host.trace + [FsyncCall(fd)];
    Barrier(ctx, host, target, w);
    rc := w.realClose(fd);
    host.trace := host.trace + [CloseCall(fd)];
  }

  /** The `real_call` part of fclose: fflush, fsync of the stream's
      descriptor, the directory barrier for a found target, then the real
      fclose. */
  method FlushAndFclose(ctx: SyncContext?, host: Host, fp: Stream, fd: int, target: Option<CStr>, w: World)
    returns (rc: int)
    requires target.Some? ==> ctx != null
    modifies ctx, host
    ensures Snapshot(ctx) == old(Snapshot(ctx))
    ensures host.env == old(host.env)
    ensures rc == w.realFclose(fp)
    ensures host.trace == old(host.trace) + ([FflushCall(fp), FsyncCall(fd)] + DirBarrier(target, w) + [FcloseCall(fp)])
  {
    host.trace := host.trace + [FflushCall(fp), FsyncCall(fd)];
    Barrier(ctx, host, target, w);
    rc := w.realFclose(fp);
    host.trace := host.trace + [FcloseCall(fp)];
  }

  /** The end of close and fclose, after the real call: close_sync runs
      when `to_sync` holds and the descriptor is write-only. The calls made
      so far are `prefix` followed by `before`. */
  method SyncAfterClose(ctx: SyncContext?, host: Host, fd: int, target: Option<CStr>, rc: int,
                        ghost prefix: seq<Event>, ghost before: seq<Event>, w: World)
    requires target.Some? ==> Armed(Snapshot(ctx))
    requires TailDefined(Snapshot(ctx), host.env, fd, target, w)
    requires host.trace == prefix + before
    modifies ctx, host
    ensures Snapshot(ctx) == old(Snapshot(ctx))
    ensures var s := AfterClose(old(Snapshot(ctx)), old(host.env), fd, target, rc, before, w);
      host.trace == prefix + s.events && host.env == s.env
  {
    var wronly := IsWronly(w.fileFlags(fd));
    if target.Some? && wronly == 1 {
      ghost var sync := CloseSyncSpec(ctx.Record(), host.env, target.value, w);
      var syncRc := ctx.CloseSync(target.value, host, w);
      assert host.trace == (prefix + before) + sync.events;
      assert (prefix + before) + sync.events == prefix + (before + sync.events);
    }
  }

  /** The interposed close (fd). */
  method Close(ctx: SyncContext?, host: Host, fd: int, w: World) returns (rc: int)
    requires CloseDefined(Snapshot(ctx), host.env, fd, w)
    modifies ctx, host
    ensures Snapshot(ctx) == old(Snapshot(ctx))
    ensures var s := CloseSpec(old(Snapshot(ctx)), old(host.env), fd, w);
      rc == s.result && host.trace == old(host.trace) + s.events && host.env == s.env
  {
    if !w.symOk {
      return -1;
    }
    var target: Option<CStr> := None;
    if fd >= 0 && ctx != null && ctx.hasHandle && ctx.reenter && !w.isFdDir(fd) {
      target := w.getPath(fd);
    }
    assert target == SyncTarget(Snapshot(ctx), fd, w);
    ghost var before := [FsyncCall(fd)] + DirBarrier(target, w) + [CloseCall(fd)];
    rc := FlushAndClose(ctx, host, fd, target, w);
    SyncAfterClose(ctx, host, fd, target, rc, old(host.trace), before, w);
  }

  /** The interposed fclose (fp). */
  method Fclose(ctx: SyncContext?, host: Host, fp: Stream, w: World) returns (rc: int)
    requires FcloseDefined(Snapshot(ctx), host.env, fp, w)
    modifies ctx, host
    ensures Snapshot(ctx) == old(Snapshot(ctx))
    ensures var s := FcloseSpec(old(Snapshot(ctx)), old(host.env), fp, w);
      rc == s.result && host.trace == old(host.trace) + s.events && host.env == s.env
  {
    if !w.symOk {
      return EOF;
    }
    var fd := w.fileno(fp);
    var target: Option<CStr> := None;
    if ctx != null && ctx.hasHandle && ctx.reenter && !w.isFdDir(fd) {
      target := w.getPath(fd);
    }
    assert target == StreamTarget(Snapshot(ctx), fd, w);
    ghost var before := [FflushCall(fp), FsyncCall(fd)] + DirBarrier(target, w) + [FcloseCall(fp)];
    rc := FlushAndFclose(ctx, host, fp, fd, target, w);
    SyncAfterClose(ctx, host, fd, target, rc, old(host.trace), before, w);
  }
}
