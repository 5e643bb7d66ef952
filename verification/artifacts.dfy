/**
  Removal of what a Vivado run leaves behind (`delete_vivado_generated_items`):
  the `VIVADO` project folder and the fixed list of generated items, each
  removed only when present.
 */
module Artifacts {
  import opened FileSystem

  /** The Vivado project folder the generated script creates. */
  const VivadoDir: string := "VIVADO"

  /** `vivado_generated_items`: further entries a batch run leaves in the project folder. */
  const VivadoGeneratedItems: seq<string> := [".Xil", "vivado.jou", "vivado.log"]

  /** Every name the cleanup removes. */
  function GeneratedNames(): (r: set<string>)
    ensures VivadoDir in r && forall i :: 0 <= i < |VivadoGeneratedItems| ==> VivadoGeneratedItems[i] in r
    ensures forall n :: n in r ==> n == VivadoDir || n in VivadoGeneratedItems
  {
    {VivadoDir} + set i | i in VivadoGeneratedItems
  }

  /**
    The cleanup can run: `VIVADO`, when present, is a directory (removing a
    plain file of that name with `shutil.rmtree` raises).  The other items may
    be files or directories.
   */
  predicate SafeToClean(top: map<string, Entry>) {
    VivadoDir in top ==> top[VivadoDir].Dir?
  }

  /** The project's top-level entries after the cleanup. */
  function CleanedTop(top: map<string, Entry>): (r: map<string, Entry>)
    ensures r.Keys == top.Keys - GeneratedNames()
    ensures forall n :: n in r ==> r[n] == top[n]
  {
    map n | n in top && n !in GeneratedNames() :: top[n]
  }

  /** Removing exactly the generated names, and changing nothing else, is the cleanup. */
  lemma CleanedTopUnique(top: map<string, Entry>, t: map<string, Entry>)
    requires forall n :: n in t <==> n in top && n != VivadoDir && n !in VivadoGeneratedItems
    requires forall n :: n in t ==> t[n] == top[n]
    ensures t == CleanedTop(top)
  {
    assert t.Keys == CleanedTop(top).Keys;
  }

  /** Running the cleanup twice leaves what running it once leaves. */
  lemma CleanedTopIdempotent(top: map<string, Entry>)
    ensures CleanedTop(CleanedTop(top)) == CleanedTop(top)
  {
  }
}
