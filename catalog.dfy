/**
 * Choosing among the framework packages offered for this device: the
 * installers built for one SDK level, and the CPU architecture bucket.
 */
module Catalog {
  import opened Text

  /** XposedZip.Installer: one downloadable installer package. */
  datatype ZipInstaller = ZipInstaller(link: string, name: string, architecture: string, sdk: int, version: string)

  /** The installers built for `sdk`, in list order. */
  function FilterBySdk(installers: seq<ZipInstaller>, sdk: int): (r: seq<ZipInstaller>)
    ensures |r| <= |installers|
    ensures forall i :: 0 <= i < |r| ==> r[i].sdk == sdk && r[i] in installers
  {
    if installers == [] then []
    else (if installers[0].sdk == sdk then [installers[0]] else []) + FilterBySdk(installers[1..], sdk)
  }

  /** Filtering a concatenation filters each part and keeps them in order. */
  lemma {:induction false} FilterBySdkAppend(a: seq<ZipInstaller>, b: seq<ZipInstaller>, sdk: int)
    ensures FilterBySdk(a + b, sdk) == FilterBySdk(a, sdk) + FilterBySdk(b, sdk)
  {
    if a != [] {
      assert (a + b)[1..] == a[1..] + b;
      FilterBySdkAppend(a[1..], b, sdk);
    } else {
      assert a + b == b;
    }
  }

  /** Every installer built for `sdk` is kept, as many times as it is listed; no other is. */
  lemma {:induction false} FilterBySdkKeepsMatches(installers: seq<ZipInstaller>, sdk: int, x: ZipInstaller)
    ensures multiset(FilterBySdk(installers, sdk))[x] == if x.sdk == sdk then multiset(installers)[x] else 0
  {
    if installers != [] {
      FilterBySdkKeepsMatches(installers[1..], sdk, x);
      assert installers == [installers[0]] + installers[1..];
    }
  }

  /** getInstallersBySdk: walk the list and collect the installers whose sdk equals the argument. */
  method GetInstallersBySdk(installers: seq<ZipInstaller>, sdk: int) returns (list: seq<ZipInstaller>)
    ensures list == FilterBySdk(installers, sdk)
  {
    list := [];
    for k := 0 to |installers|
      invariant list == FilterBySdk(installers[..k], sdk)
    {
      var i := installers[k];
      FilterBySdkAppend(installers[..k], [i], sdk);
      assert installers[..k + 1] == installers[..k] + [i];
      if i.sdk == sdk {
        list := list + [i];
      }
    }
    assert installers[..|installers|] == installers;
  }

  const SDK_LOLLIPOP := 21

  /**
   * getArch: the ABI string (Build.SUPPORTED_ABIS[0] from Lollipop on, the
   * "os.arch" environment variable before) sorted into four buckets. A missing
   * environment variable makes `info.startsWith` throw, shown here as None.
   */
  function GetArch(sdk: int, primaryAbi: string, osArchEnv: Option<string>): (r: Option<string>)
    ensures sdk >= SDK_LOLLIPOP ==> r.Some?
    ensures sdk < SDK_LOLLIPOP ==> (r.Some? <==> osArchEnv.Some?)
    ensures r.Some? ==> r.value in {"x86", "x86_64", "arm64", "arm"}
    ensures r.Some? ==>
      var info := if sdk >= SDK_LOLLIPOP then primaryAbi else osArchEnv.value;
      && (r.value == "x86" <==> info == "x86")
      && (r.value == "x86_64" <==> info == "x86_64")
      && (r.value == "arm64" <==> info != "x86" && info != "x86_64" && StartsWith(info, "arm64"))
  {
    var info := if sdk >= SDK_LOLLIPOP then Some(primaryAbi) else osArchEnv;
    if info == Some("x86") then Some("x86")
    else if info == Some("x86_64") then Some("x86_64")
    else if info.None? then None
    else if StartsWith(info.value, "arm64") then Some("arm64")
    else Some("arm")
  }
}
