/** The desktop launch mode, persisted as two flag files next to the
    executable. A flag file is modelled by its last write time, `None`
    when the file does not exist; a failing file-system call is an input. */
module DesktopLaunchModeFlagManager {
  import opened Common

  datatype LaunchMode = FloatingWindow | MiniEdgeDock

  function Other(mode: LaunchMode): (r: LaunchMode)
    ensures r != mode
  {
    if mode == FloatingWindow then MiniEdgeDock else FloatingWindow
  }

  /** The two flag files: `launch-mode-floating.flag` and
      `launch-mode-mini-edge-dock.flag`. */
  datatype FlagFiles = FlagFiles(floating: Option<int>, miniEdgeDock: Option<int>)
  {
    /** The flag file that persists `mode`. */
    function Of(mode: LaunchMode): Option<int>
    {
      if mode == FloatingWindow then floating else miniEdgeDock
    }
  }

  /** The mode the two flags select: none without a flag, the only flag's
      mode with one, and the newer flag with both, a tie going to the
      mini edge dock. */
  function Decide(files: FlagFiles): Option<LaunchMode>
  {
    if files.floating.None? && files.miniEdgeDock.None? then None
    else if files.floating.Some? && files.miniEdgeDock.None? then Some(FloatingWindow)
    else if files.floating.None? && files.miniEdgeDock.Some? then Some(MiniEdgeDock)
    else if files.miniEdgeDock.value >= files.floating.value then Some(MiniEdgeDock)
    else Some(FloatingWindow)
  }

  /** What `TryGetLaunchMode` returns: the decision, or null when reading
      the write times (needed only when both flags exist) throws. */
  function ReadMode(files: FlagFiles, writeTimeReadFails: bool): Option<LaunchMode>
  {
    if files.floating.Some? && files.miniEdgeDock.Some? && writeTimeReadFails then None
    else Decide(files)
  }

  /** There is a mode exactly when some flag exists; it is the mini edge
      dock exactly when that flag exists and is at least as new as any
      floating flag, and the floating window exactly when that flag
      exists and is strictly newer than any mini edge dock flag. */
  lemma DecideMeaning(files: FlagFiles)
    ensures Decide(files).None? <==> files.floating.None? && files.miniEdgeDock.None?
    ensures Decide(files) == Some(MiniEdgeDock)
      <==> files.miniEdgeDock.Some? && (files.floating.None? || files.miniEdgeDock.value >= files.floating.value)
    ensures Decide(files) == Some(FloatingWindow)
      <==> files.floating.Some? && (files.miniEdgeDock.None? || files.floating.value > files.miniEdgeDock.value)
  {
  }

  /** `SafeDelete`: the flag is gone unless the delete throws, which is
      ignored. */
  function SafeDelete(flag: Option<int>, fails: bool): Option<int>
  {
    if fails then flag else None
  }

  /** The flags after `SetLaunchMode(mode)` at time `now`: the mode's own
      flag is written, then the other one deleted. A failed write throws
      before the delete and is swallowed. */
  function AfterSet(files: FlagFiles, mode: LaunchMode, now: int, writeFails: bool, deleteFails: bool): FlagFiles
  {
    if writeFails then files
    else match mode
      case FloatingWindow => FlagFiles(Some(now), SafeDelete(files.miniEdgeDock, deleteFails))
      case MiniEdgeDock => FlagFiles(SafeDelete(files.floating, deleteFails), Some(now))
  }

  /** After a successful write the mode's flag carries `now`; the other
      flag is gone unless the delete failed, when it is as it was; a
      failed write changes nothing. */
  lemma AfterSetMeaning(files: FlagFiles, mode: LaunchMode, now: int, writeFails: bool, deleteFails: bool)
    ensures var after := AfterSet(files, mode, now, writeFails, deleteFails);
      && (writeFails ==> after == files)
      && (!writeFails ==> after.Of(mode) == Some(now))
      && (!writeFails && !deleteFails ==> after.Of(Other(mode)).None?)
      && (!writeFails && deleteFails ==> after.Of(Other(mode)) == files.Of(Other(mode)))
  {
  }

  /** Round trip: after a successful `SetLaunchMode(m)` the manager reads
      back `m`, whatever the flags were before. */
  lemma SetThenGet(files: FlagFiles, mode: LaunchMode, now: int, writeTimeReadFails: bool)
    ensures ReadMode(AfterSet(files, mode, now, false, false), writeTimeReadFails) == Some(mode)
  {
  }

  /** Even when deleting the other flag fails, `m` is read back, provided
      the clock has moved past that flag's write time and the write times
      can be read. */
  lemma SetThenGetAfterFailedDelete(files: FlagFiles, mode: LaunchMode, now: int)
    requires files.Of(Other(mode)).Some? ==> files.Of(Other(mode)).value < now
    ensures ReadMode(AfterSet(files, mode, now, false, true), false) == Some(mode)
  {
  }

  /** With a failed delete and a floating write at the same tick as the
      surviving mini edge dock flag, the tie reads back the mini edge dock. */
  lemma TieAfterFailedDeleteReadsMiniEdgeDock(now: int)
    ensures ReadMode(AfterSet(FlagFiles(None, Some(now)), FloatingWindow, now, false, true), false) == Some(MiniEdgeDock)
  {
  }

  /** The flag file manager; the file system is its state. */
  class FlagManager {
    var files: FlagFiles

    /** A manager over a directory whose flag files are as given. */
    constructor(files: FlagFiles)
      ensures this.files == files
    {
      this.files := files;
    }

    /** `TryGetLaunchMode`. */
    method TryGetLaunchMode(writeTimeReadFails: bool) returns (mode: Option<LaunchMode>)
      ensures mode == ReadMode(files, writeTimeReadFails)
    {
      var hasFloatingFlag := files.floating.Some?;
      var hasMiniEdgeDockFlag := files.miniEdgeDock.Some?;
      if !hasFloatingFlag && !hasMiniEdgeDockFlag {
        return None;
      }
      if hasFloatingFlag && !hasMiniEdgeDockFlag {
        return Some(FloatingWindow);
      }
      if !hasFloatingFlag && hasMiniEdgeDockFlag {
        return Some(MiniEdgeDock);
      }
      if writeTimeReadFails {
        return None;
      }
      var floatingWriteTime := files.floating.value;
      var miniEdgeDockWriteTime := files.miniEdgeDock.value;
      mode := if miniEdgeDockWriteTime >= floatingWriteTime then Some(MiniEdgeDock) else Some(FloatingWindow);
    }

    /** `SetLaunchMode`. */
    method SetLaunchMode(mode: LaunchMode, now: int, writeFails: bool, deleteFails: bool)
      modifies this
      ensures files == AfterSet(old(files), mode, now, writeFails, deleteFails)
    {
      if writeFails {
        return;
      }
      match mode {
        case FloatingWindow =>
          files := files.(floating := Some(now));
          files := files.(miniEdgeDock := SafeDelete(files.miniEdgeDock, deleteFails));
        case MiniEdgeDock =>
          files := files.(miniEdgeDock := Some(now));
          files := files.(floating := SafeDelete(files.floating, deleteFails));
      }
    }
  }

  /** The newer flag wins: a floating flag written a minute after the mini
      edge dock flag selects the floating window. */
  method NewestFlagWins(now: int) returns (read: Option<LaunchMode>)
    ensures read == Some(FloatingWindow)
  {
    var manager := new FlagManager(FlagFiles(Some(now + 60), Some(now)));
    read := manager.TryGetLaunchMode(false);
  }
}
