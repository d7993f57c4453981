/**
 * The restricted-root command line (`uchroot`) and the mounts it is given:
 * numbered mountpoints under a prefix, one `-M host:/mountpoint` argument
 * pair per mount, and the PATH / LD_LIBRARY_PATH derived from the mounts.
 */
module Sandbox {
  import opened Strings
  import opened Commands

  /** The i-th mountpoint under `prefix`: `prefix + "/" + str(i)`. */
  function MountPoint(prefix: string, i: nat): string
  {
    prefix + "/" + NatToString(i)
  }

  /** The first n mountpoints under `prefix`, in order. */
  function MountPoints(prefix: string, n: nat): seq<string>
  {
    seq(n, i requires 0 <= i => MountPoint(prefix, i))
  }

  /** Mountpoints with different numbers are different paths. */
  lemma MountPointsDistinct(prefix: string, i: nat, j: nat)
    requires i != j
    ensures MountPoint(prefix, i) != MountPoint(prefix, j)
  {
    var n := |prefix| + 1;
    assert MountPoint(prefix, i)[n..] == NatToString(i);
    assert MountPoint(prefix, j)[n..] == NatToString(j);
    NatToStringInjective(i, j);
  }

  /** The `-M mount:/mountpoint` pairs for `mounts`, numbered from 0 under `prefix`. */
  function MountArgs(prefix: string, mounts: seq<string>): seq<string>
  {
    if mounts == [] then []
    else MountArgs(prefix, mounts[..|mounts| - 1])
         + ["-M", mounts[|mounts| - 1] + ":/" + MountPoint(prefix, |mounts| - 1)]
  }

  /** The pairs are in mount order, two arguments per mount. */
  lemma {:induction false} MountArgsAt(prefix: string, mounts: seq<string>, k: nat)
    requires k < |mounts|
    ensures |MountArgs(prefix, mounts)| == 2 * |mounts|
    ensures MountArgs(prefix, mounts)[2 * k] == "-M"
    ensures MountArgs(prefix, mounts)[2 * k + 1] == mounts[k] + ":/" + MountPoint(prefix, k)
  {
    var n := |mounts| - 1;
    if k < n {
      MountArgsAt(prefix, mounts[..n], k);
    } else if n > 0 {
      MountArgsAt(prefix, mounts[..n], 0);
    }
  }

  /** `uchroot_mounts(prefix, mounts)`: one numbered mountpoint per mount. */
  method UchrootMounts(prefix: string, mounts: seq<string>) returns (mntpoints: seq<string>)
    ensures |mntpoints| == |mounts|
    ensures forall k :: 0 <= k < |mounts| ==> mntpoints[k] == MountPoint(prefix, k)
  {
    var i := 0;
    mntpoints := [];
    while i < |mounts|
      invariant 0 <= i <= |mounts|
      invariant mntpoints == MountPoints(prefix, i)
    {
      var mntpoint := prefix + "/" + NatToString(i);
      mntpoints := mntpoints + [mntpoint];
      i := i + 1;
    }
  }

  /**
   * `_uchroot_mounts(prefix, mounts, uchroot)`: numbers the mountpoints as
   * `UchrootMounts` does and binds one `-M mount:/mountpoint` pair per mount
   * after the arguments `uchroot` already has. Creating the mountpoint
   * directories (`mkdir -p`) is left to the file system.
   */
  method UchrootMountsInto(prefix: string, mounts: seq<string>, uchroot: Command)
    returns (newUchroot: Command, mntpoints: seq<string>)
    ensures |mntpoints| == |mounts|
    ensures forall k :: 0 <= k < |mounts| ==> mntpoints[k] == MountPoint(prefix, k)
    ensures mounts == [] ==> newUchroot == uchroot
    ensures mounts != [] ==> newUchroot.Bound? && Callee(newUchroot) == Callee(uchroot)
    ensures mounts != [] ==> ArgsOf(newUchroot) == ArgsOf(uchroot) + MountArgs(prefix, mounts)
  {
    var i := 0;
    newUchroot := uchroot;
    mntpoints := [];
    while i < |mounts|
      invariant 0 <= i <= |mounts|
      invariant mntpoints == MountPoints(prefix, i)
      invariant i == 0 ==> newUchroot == uchroot
      invariant i > 0 ==> newUchroot.Bound? && Callee(newUchroot) == Callee(uchroot)
      invariant i > 0 ==> ArgsOf(newUchroot) == ArgsOf(uchroot) + MountArgs(prefix, mounts[..i])
    {
      var mntpoint := prefix + "/" + NatToString(i);
      newUchroot := Bind(newUchroot, ["-M", mounts[i] + ":/" + mntpoint]);
      mntpoints := mntpoints + [mntpoint];
      assert mounts[..i + 1][..i] == mounts[..i];
      i := i + 1;
    }
    assert mounts[..|mounts|] == mounts;
  }

  /** The system directories searched after every mount-derived one. */
  const SystemPaths: seq<string> := ["/usr/bin", "/bin", "/usr/sbin", "/sbin"]

  /**
   * `uchroot_env(mounts)`: the search path is every `/m/bin`, then every `/m`,
   * in mount order, then the system directories; the library path is every
   * `/m/lib` in mount order.
   */
  function UchrootEnv(mounts: seq<string>): (env: (seq<string>, seq<string>))
    ensures |env.0| == 2 * |mounts| + |SystemPaths| && |env.1| == |mounts|
    ensures forall k :: 0 <= k < |mounts| ==>
      env.0[k] == "/" + mounts[k] + "/bin" &&
      env.0[|mounts| + k] == "/" + mounts[k] &&
      env.1[k] == "/" + mounts[k] + "/lib"
    ensures env.0[2 * |mounts|..] == SystemPaths
  {
    var ldLibs := seq(|mounts|, k requires 0 <= k < |mounts| => "/" + mounts[k] + "/lib");
    var bins := seq(|mounts|, k requires 0 <= k < |mounts| => "/" + mounts[k] + "/bin");
    var roots := seq(|mounts|, k requires 0 <= k < |mounts| => "/" + mounts[k]);
    (bins + roots + SystemPaths, ldLibs)
  }

  /**
   * Adding a mount puts its `bin` directory after every earlier mount's and
   * before every mount root, its root after every earlier root and before
   * the system directories, and its `lib` directory last; nothing else moves.
   */
  lemma UchrootEnvOrder(mounts: seq<string>, m: string)
    ensures var (paths, libs) := UchrootEnv(mounts);
      var n := |mounts|;
      UchrootEnv(mounts + [m]).0 == paths[..n] + ["/" + m + "/bin"] + paths[n..2 * n] + ["/" + m] + SystemPaths &&
      UchrootEnv(mounts + [m]).1 == libs + ["/" + m + "/lib"]
  {
    var (paths, libs) := UchrootEnv(mounts);
    var n := |mounts|;
    var (paths', libs') := UchrootEnv(mounts + [m]);
    var expected := paths[..n] + ["/" + m + "/bin"] + paths[n..2 * n] + ["/" + m] + SystemPaths;
    assert |paths'| == |expected|;
    forall k | 0 <= k < |paths'| ensures paths'[k] == expected[k] {
      if k < n {
      } else if k == n {
      } else if k < 2 * n + 1 {
        assert paths'[k] == "/" + mounts[k - n - 1] && expected[k] == paths[n..2 * n][k - n - 1];
      } else if k == 2 * n + 1 {
      } else {
        assert paths'[k] == paths'[2 * (n + 1)..][k - 2 * n - 2];
      }
    }
    assert libs' == libs + ["/" + m + "/lib"];
  }

  /** Two container mounts give the search path `/mnt/0/bin, /mnt/1/bin, /mnt/0, /mnt/1` and then the system directories. */
  lemma UchrootEnvTwoMounts()
    ensures UchrootEnv(MountPoints("mnt", 2)).0 ==
      ["/mnt/0/bin", "/mnt/1/bin", "/mnt/0", "/mnt/1", "/usr/bin", "/bin", "/usr/sbin", "/sbin"]
    ensures UchrootEnv(MountPoints("mnt", 2)).1 == ["/mnt/0/lib", "/mnt/1/lib"]
  {
    var m := MountPoints("mnt", 2);
    assert NatToString(0) == "0" && NatToString(1) == "1";
    assert m[0] == "mnt/0" && m[1] == "mnt/1";
    var env := UchrootEnv(m);
    assert "/" + m[0] + "/bin" == "/mnt/0/bin" && "/" + m[1] + "/bin" == "/mnt/1/bin";
    assert "/" + m[0] == "/mnt/0" && "/" + m[1] == "/mnt/1";
    assert "/" + m[0] + "/lib" == "/mnt/0/lib" && "/" + m[1] + "/lib" == "/mnt/1/lib";
    assert env.0 == env.0[..4] + env.0[4..];
  }

  /** The fixed leading arguments of `uchroot_no_llvm`: root at the working directory, run as uid/gid, no inherited environment. */
  function UchrootArgs(uid: int, gid: int, cwd: string): seq<string>
  {
    ["-C", "-w", "/", "-r", cwd, "-u", IntToString(uid), "-g", IntToString(gid), "-E", "-A"]
  }

  /** The restricted-root tool itself. */
  const UchrootTool: Command := Other("uchroot")

  /**
   * `uchroot_no_llvm(*args, uid=0, gid=0)`: one binding of the tool holding
   * the fixed arguments and then `args`; `cwd` is `os.path.abspath(".")`.
   */
  function UchrootNoLlvm(args: seq<string>, uid: int, gid: int, cwd: string): (c: Command)
    ensures c == Bound(UchrootTool, UchrootArgs(uid, gid, cwd) + args)
  {
    var c := Bind(UchrootTool, ["-C", "-w", "/", "-r", cwd]);
    var c := Bind(c, ["-u", IntToString(uid), "-g", IntToString(gid), "-E", "-A"]);
    Bind(c, args)
  }

  /** The variables `uchroot` sets from the mountpoints: the ':'-joined library and search paths. */
  function ChrootVars(mntpoints: seq<string>): Env
  {
    var env := UchrootEnv(mntpoints);
    map["LD_LIBRARY_PATH" := Join(":", env.1), "PATH" := Join(":", env.0)]
  }

  /**
   * `uchroot(*args, uid=0, gid=0)` with the container mounts `containerMounts`:
   * the tool bound to its fixed arguments, `args` and the mount pairs under
   * "mnt", wrapped in the derived environment, then bound to "--".
   */
  method Uchroot(args: seq<string>, uid: int, gid: int, cwd: string, containerMounts: seq<string>)
    returns (c: Command)
    ensures c == Bound(
      WithEnv(Bound(UchrootTool, UchrootArgs(uid, gid, cwd) + args + MountArgs("mnt", containerMounts)),
              ChrootVars(MountPoints("mnt", |containerMounts|))),
      ["--"])
  {
    var uchrootCmd := UchrootNoLlvm(args, uid, gid, cwd);
    var mounts;
    uchrootCmd, mounts := UchrootMountsInto("mnt", containerMounts, uchrootCmd);
    assert mounts == MountPoints("mnt", |containerMounts|);
    assert uchrootCmd == Bound(UchrootTool, UchrootArgs(uid, gid, cwd) + args + MountArgs("mnt", containerMounts)) by {
      if containerMounts == [] {
        assert MountArgs("mnt", containerMounts) == [];
        assert UchrootArgs(uid, gid, cwd) + args + [] == UchrootArgs(uid, gid, cwd) + args;
      }
    }
    uchrootCmd := WithEnv(uchrootCmd, ChrootVars(mounts));
    c := Bind(uchrootCmd, ["--"]);
  }
}
