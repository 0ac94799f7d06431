/**
 * The device as the installer sees it: a root shell (RootUtil) that answers
 * every command with an exit code and output lines, and the asset extractor
 * (AssetUtil) that copies a bundled file to a path or fails. Neither is part
 * of this model; both are oracles that record what they were asked to do.
 */
module Platform {
  import opened Text

  /** One thing done to the device, in the order it was done. */
  datatype Action =
      /** RootUtil.execute (withBusybox false) or executeWithBusybox (true). */
    | Run(command: string, withBusybox: bool)
      /** AssetUtil.writeAssetToFile(asset, dest, perms). */
    | Extract(asset: Option<string>, dest: string, perms: int)
      /** AssetUtil.removeBusybox(). */
    | BusyboxRemoval

  /** The answers the device gives. */
  datatype Oracle = Oracle(
    rootGranted: bool,
    exitCodes: map<string, int>,
    outputs: map<string, seq<string>>,
    assets: set<string>)
  {
    /** The exit code of a command; commands the map does not name succeed. */
    function ExitCode(command: string): int {
      if command in exitCodes then exitCodes[command] else 0
    }

    /** The lines a command prints. */
    function Output(command: string): seq<string> {
      if command in outputs then outputs[command] else []
    }

    /** Whether an asset can be extracted; a null asset name cannot. */
    predicate CanExtract(asset: Option<string>) {
      asset.Some? && asset.value in assets
    }
  }

  class Device {
    const oracle: Oracle
    /** The root shell has been acquired. */
    var started: bool
    /** Every action done to the device so far. */
    var log: seq<Action>

    constructor (oracle: Oracle)
      ensures this.oracle == oracle && !started && log == []
    {
      this.oracle := oracle;
      started := false;
      log := [];
    }

    /** RootUtil.startShell: succeeds at once when running, otherwise asks for root. */
    method StartShell() returns (ok: bool)
      modifies this`started
      ensures ok == (old(started) || oracle.rootGranted)
      ensures started == ok
    {
      ok := started || oracle.rootGranted;
      started := ok;
    }

    /** Runs one command to completion and reports its exit code and output. */
    method Execute(command: string, withBusybox: bool) returns (code: int, output: seq<string>)
      modifies this`log
      ensures log == old(log) + [Run(command, withBusybox)]
      ensures code == oracle.ExitCode(command) && output == oracle.Output(command)
    {
      log := log + [Run(command, withBusybox)];
      code := oracle.ExitCode(command);
      output := oracle.Output(command);
    }

    /** Copies a bundled asset to `dest` with permission bits `perms`. */
    method WriteAsset(asset: Option<string>, dest: string, perms: int) returns (ok: bool)
      modifies this`log
      ensures log == old(log) + [Extract(asset, dest, perms)]
      ensures ok == oracle.CanExtract(asset)
    {
      log := log + [Extract(asset, dest, perms)];
      ok := oracle.CanExtract(asset);
    }

    /** Deletes the bundled busybox binary. */
    method RemoveBusybox()
      modifies this`log
      ensures log == old(log) + [BusyboxRemoval]
    {
      log := log + [BusyboxRemoval];
    }
  }
}
