/** One extraction, uninterrupted, as the source runs it over the file system. */
module Disks {
  import opened Extract

  datatype Outcome =
    | Skipped        // The listing is there already, or the application lists nothing
    | Missing(i: nat) // The `i`-th file is listed but missing
    | Extracted

  /** The files after the first `n` are in place. */
  ghost function Install(k: Package, files: Files, n: nat): Files
    requires n <= |k.keys| + 1 && AllPresent(k, n)
  {
    if n == 0 then files else Install(k, files, n - 1)[k.Target(n - 1) := k.resources[k.Source(n - 1)]]
  }

  /** Of the first `n` files the `i`-th is the last to go to path `p`. */
  ghost predicate LastAt(k: Package, n: nat, p: Path, i: nat)
    requires n <= |k.keys| + 1
  {
    i < n && k.Target(i) == p && forall j :: i < j < n ==> k.Target(j) != p
  }

  ghost predicate LastOf(k: Package, p: Path, i: nat) {
    LastAt(k, |k.keys| + 1, p, i)
  }

  /** Installing gives every final path the whole of the last resource that goes there, and touches no other path. */
  lemma {:induction false} InstallIsWhole(k: Package, files: Files, n: nat, p: Path)
    requires n <= |k.keys| + 1 && AllPresent(k, n)
    ensures forall i: nat :: LastAt(k, n, p, i) ==>
              p in Install(k, files, n) && Install(k, files, n)[p] == k.resources[k.Source(i)]
    ensures (forall i :: 0 <= i < n ==> k.Target(i) != p) ==>
              && (p in Install(k, files, n) <==> p in files)
              && (p in files ==> Install(k, files, n)[p] == files[p])
  {
    if n > 0 {
      InstallIsWhole(k, files, n - 1, p);
      forall i: nat | LastAt(k, n, p, i)
        ensures p in Install(k, files, n) && Install(k, files, n)[p] == k.resources[k.Source(i)]
      {
        assert i < n - 1 ==> LastAt(k, n - 1, p, i) && k.Target(n - 1) != p;
      }
    }
  }

  class Disk {
    var files: Files

    /** Writes aside and moves into place. */
    method WriteWhole(target: Path, data: Data, suffix: string)
      requires target + "." + suffix !in files
      modifies this
      ensures files == old(files)[target := data]
    {
      var tmp := target + "." + suffix;
      assert |tmp| > |target|;
      files := files[tmp := data];
      var moved := files[tmp];
      files := files - {tmp};
      assert files == old(files);
      files := files[target := moved];
    }

    /** Each file is written aside under a suffix of its own. */
    method Extract(k: Package, suffixes: seq<string>) returns (outcome: Outcome)
      requires |suffixes| == |k.keys| + 1
      requires forall i :: 0 <= i <= |k.keys| ==>
                 k.Target(i) + "." + suffixes[i] !in files && !k.IsTarget(k.Target(i) + "." + suffixes[i])
      modifies this
      ensures outcome.Skipped? <==> k.Listing() in old(files) || k.Source(|k.keys|) !in k.resources
      ensures match outcome
              case Skipped => files == old(files)
              case Missing(i) =>
                i < |k.keys| && AllPresent(k, i) && k.Source(i) !in k.resources && files == Install(k, old(files), i)
              case Extracted => AllPresent(k, |k.keys| + 1) && files == Install(k, old(files), |k.keys| + 1)
      ensures outcome.Extracted? ==>
                forall p, i: nat :: LastOf(k, p, i) ==> p in files && files[p] == k.resources[k.Source(i)]
    {
      if k.Listing() in files || k.Source(|k.keys|) !in k.resources {
        return Skipped;
      }
      var i := 0;
      while i < |k.keys|
        invariant 0 <= i <= |k.keys| && AllPresent(k, i)
        invariant files == Install(k, old(files), i)
      {
        if k.Source(i) !in k.resources {
          return Missing(i);
        }
        AsideIsFree(k, old(files), i, k.Target(i) + "." + suffixes[i]);
        WriteWhole(k.Target(i), k.resources[k.Source(i)], suffixes[i]);
        i := i + 1;
      }
      AsideIsFree(k, old(files), i, k.Listing() + "." + suffixes[i]);
      WriteWhole(k.Listing(), k.resources[k.Source(i)], suffixes[i]);
      InstallIsComplete(k, old(files));
      return Extracted;
    }
  }

  lemma AsideIsFree(k: Package, files: Files, n: nat, tmp: Path)
    requires n <= |k.keys| && AllPresent(k, n) && tmp !in files && !k.IsTarget(tmp)
    ensures tmp !in Install(k, files, n)
  {
    InstallIsWhole(k, files, n, tmp);
    assert forall i :: 0 <= i < n && k.Target(i) == tmp ==> k.IsTarget(tmp);
  }

  lemma InstallIsComplete(k: Package, files: Files)
    requires AllPresent(k, |k.keys| + 1)
    ensures var all := Install(k, files, |k.keys| + 1);
            forall p, i: nat :: LastOf(k, p, i) ==> p in all && all[p] == k.resources[k.Source(i)]
  {
    forall p, i: nat | LastOf(k, p, i)
      ensures var all := Install(k, files, |k.keys| + 1); p in all && all[p] == k.resources[k.Source(i)]
    {
      InstallIsWhole(k, files, |k.keys| + 1, p);
    }
  }
}
