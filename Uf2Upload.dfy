/**
 * The manual firmware upload script (manual_uf2_upload.py): find the Feather
 * M0's UF2 bootloader volume under /Volumes and copy the built firmware.uf2
 * onto it as NEW.UF2. The file system is a class holding the existing
 * directories and the files with their contents; the directory listing,
 * whether the copy succeeds and the project directory are parameters.
 */
module Uf2Upload {
  import opened Bytes

  datatype Option<T> = None | Some(value: T)

  const VOLUMES: string := "/Volumes"
  const BOOT_LABEL: string := "FEATHERBOOT"
  const TARGET_NAME: string := "NEW.UF2"

  /** `os.path.join(a, b)` for a relative `b`: one separator between the parts. */
  function Join(a: string, b: string): (p: string)
    ensures |p| >= |a| + |b| && p[|p| - |b|..] == b
  {
    if |a| > 0 && a[|a| - 1] == '/' then a + b else a + "/" + b
  }

  /** `UF2_FILE`: the build output under the project directory. */
  function Uf2File(projectDir: string): string
  {
    Join(Join(Join(Join(projectDir, ".pio"), "build"), "adafruit_feather_m0"), "firmware.uf2")
  }

  /** `str.upper()` on ASCII letters; every other character is kept. */
  function UpperChar(c: char): (u: char)
    ensures !('a' <= u <= 'z')
    ensures !('a' <= c <= 'z') ==> u == c
  {
    if 'a' <= c <= 'z' then (c as int - 'a' as int + 'A' as int) as char else c
  }

  function Upper(s: string): (u: string)
    ensures |u| == |s| && forall i | 0 <= i < |s| :: u[i] == UpperChar(s[i])
  {
    if s == [] then [] else [UpperChar(s[0])] + Upper(s[1..])
  }

  /** `sub in s`: `sub` occurs at some position of `s`. */
  predicate Contains(s: string, sub: string)
    decreases |s|
  {
    |s| >= |sub| && (s[..|sub|] == sub || Contains(s[1..], sub))
  }

  /** Wherever `sub` occurs in `s`, `Contains` finds it. */
  lemma {:induction false} ContainsAt(s: string, sub: string, i: nat)
    requires i + |sub| <= |s| && s[i..i + |sub|] == sub
    ensures Contains(s, sub)
    decreases i
  {
    if i > 0 {
      assert s[1..][i - 1..i - 1 + |sub|] == s[i..i + |sub|];
      ContainsAt(s[1..], sub, i - 1);
    }
  }

  /** `sub` occurs in `s` starting at position `i`. */
  predicate OccursAt(s: string, sub: string, i: nat)
  {
    i + |sub| <= |s| && s[i..i + |sub|] == sub
  }

  /** Whenever `Contains` holds, `sub` occurs at some position of `s`. */
  lemma {:induction false} ContainsFound(s: string, sub: string)
    requires Contains(s, sub)
    ensures exists i: nat :: OccursAt(s, sub, i)
    decreases |s|
  {
    if s[..|sub|] == sub {
      assert OccursAt(s, sub, 0);
    } else {
      ContainsFound(s[1..], sub);
      var i: nat :| OccursAt(s[1..], sub, i);
      assert s[1..][i..i + |sub|] == s[i + 1..i + 1 + |sub|];
      assert OccursAt(s, sub, i + 1);
    }
  }

  /** `Contains` is exactly Python's `in`: `sub` occurs at some position of `s`. */
  lemma ContainsIffOccurs(s: string, sub: string)
    ensures Contains(s, sub) <==> exists i: nat :: OccursAt(s, sub, i)
  {
    if Contains(s, sub) {
      ContainsFound(s, sub);
    }
    if i: nat :| OccursAt(s, sub, i) {
      ContainsAt(s, sub, i);
    }
  }

  /** The test on line 15. */
  predicate IsBootVolume(name: string)
  {
    Contains(Upper(name), BOOT_LABEL)
  }

  /** Upper-casing twice is upper-casing once. */
  lemma {:induction false} UpperIdempotent(s: string)
    ensures Upper(Upper(s)) == Upper(s)
  {
    assert forall i | 0 <= i < |s| :: Upper(Upper(s))[i] == UpperChar(UpperChar(s[i])) == UpperChar(s[i]);
  }

  /** The match ignores case: a name and its upper-cased form are both boot volumes or both not. */
  lemma BootVolumeIgnoresCase(name: string)
    ensures IsBootVolume(name) <==> IsBootVolume(Upper(name))
  {
    UpperIdempotent(name);
  }

  /** A name that upper-cases to the label somewhere in it is a boot volume, whatever its case. */
  lemma BootVolumeAt(name: string, i: nat)
    requires i + |BOOT_LABEL| <= |name| && Upper(name)[i..i + |BOOT_LABEL|] == BOOT_LABEL
    ensures IsBootVolume(name)
  {
    ContainsAt(Upper(name), BOOT_LABEL, i);
  }

  /** A name is a boot volume exactly when "FEATHERBOOT" occurs somewhere in its upper-cased form. */
  lemma BootVolumeIff(name: string)
    ensures IsBootVolume(name) <==> exists i: nat :: OccursAt(Upper(name), BOOT_LABEL, i)
  {
    ContainsIffOccurs(Upper(name), BOOT_LABEL);
    assert IsBootVolume(name) == Contains(Upper(name), BOOT_LABEL);
  }

  /** A name shorter than the label never matches. */
  lemma ShortNameNeverMatches(name: string)
    requires |name| < |BOOT_LABEL|
    ensures !IsBootVolume(name)
  {
  }

  /** `k` is the first name in `names` that is a boot volume. */
  predicate FirstBootVolume(names: seq<string>, k: int)
  {
    0 <= k < |names| && IsBootVolume(names[k]) && forall j | 0 <= j < k :: !IsBootVolume(names[j])
  }

  /** The result of `copy` and, on success, the path written. */
  datatype Outcome = MissingFirmware | NoBootVolume | Uploaded(dest: string) | CopyFailed(dest: string)

  /** The host's file system as far as the script sees it. */
  class FileSystem {
    /** The directories that exist. */
    var dirs: set<string>
    /** The files that exist, with their contents. */
    var files: map<string, seq<u8>>

    constructor (dirs: set<string>, files: map<string, seq<u8>>)
      ensures this.dirs == dirs && this.files == files
    {
      this.dirs := dirs;
      this.files := files;
    }

    /**
     * `find_featherboot()`: scan the entries of /Volumes (listed as
     * `listing`) in order and return the path of the first boot volume;
     * nothing when /Volumes does not exist or no entry matches.
     */
    method FindFeatherboot(listing: seq<string>) returns (path: Option<string>)
      ensures VOLUMES !in dirs ==> path == None
      ensures path.Some? ==> exists k :: FirstBootVolume(listing, k) && path.value == Join(VOLUMES, listing[k])
      ensures path.None? && VOLUMES in dirs ==> forall k | 0 <= k < |listing| :: !IsBootVolume(listing[k])
    {
      if VOLUMES in dirs {
        for i := 0 to |listing|
          invariant forall j | 0 <= j < i :: !IsBootVolume(listing[j])
        {
          if IsBootVolume(listing[i]) {
            assert FirstBootVolume(listing, i);
            return Some(Join(VOLUMES, listing[i]));
          }
        }
      }
      return None;
    }

    /**
     * `upload_uf2()`: give up when the firmware was not built; otherwise
     * look for the boot volume and copy the firmware onto it as NEW.UF2.
     * A failing copy is caught and leaves the files as they were.
     */
    method UploadUf2(projectDir: string, listing: seq<string>, copySucceeds: bool) returns (outcome: Outcome)
      modifies this`files
      ensures Uf2File(projectDir) !in old(files) ==> outcome == MissingFirmware && files == old(files)
      ensures outcome.NoBootVolume? ==>
                files == old(files) && (VOLUMES !in dirs || forall k | 0 <= k < |listing| :: !IsBootVolume(listing[k]))
      ensures outcome.Uploaded? || outcome.CopyFailed? ==>
                Uf2File(projectDir) in old(files)
                && (exists k :: FirstBootVolume(listing, k) && outcome.dest == Join(Join(VOLUMES, listing[k]), TARGET_NAME))
                && (outcome.Uploaded? <==> copySucceeds)
      ensures outcome.Uploaded? ==> files == old(files)[outcome.dest := old(files)[Uf2File(projectDir)]]
      ensures outcome.CopyFailed? ==> files == old(files)
    {
      var uf2 := Uf2File(projectDir);
      if uf2 !in files {
        return MissingFirmware;
      }
      var found := FindFeatherboot(listing);
      if found.Some? {
        var dest := Join(found.value, TARGET_NAME);
        if copySucceeds {
          files := files[dest := files[uf2]];
          return Uploaded(dest);
        }
        return CopyFailed(dest);
      }
      return NoBootVolume;
    }
  }

  /** Whatever the volume is called, the copy lands in a file named NEW.UF2 directly inside it. */
  lemma TargetIsNewUf2(volume: string)
    ensures var dest := Join(volume, TARGET_NAME);
            dest[|dest| - |TARGET_NAME|..] == TARGET_NAME && dest[..|dest| - |TARGET_NAME|] == Join(volume, "")
  {
  }
}
