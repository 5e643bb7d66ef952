/**
  The constraints folder check (`check_and_clean_sdc_folder`): a project's `sdc`
  folder conforms when it exists and holds `timing.sdc`; a conforming folder is
  cleaned down to that one file, a non-conforming one is left alone.
 */
module Constraints {
  import opened Wrappers

  /** The one constraints file a project must provide. */
  const TimingSdc: string := "timing.sdc"

  /** The folder exists and lists `timing.sdc`. */
  predicate SdcConforms(sdc: Option<set<string>>) {
    sdc.Some? && TimingSdc in sdc.value
  }

  /** The files the cleaning removes: every file but `timing.sdc` of a conforming folder, none otherwise. */
  function SdcDeletions(sdc: Option<set<string>>): (r: set<string>)
    ensures SdcConforms(sdc) ==> r + {TimingSdc} == sdc.value && TimingSdc !in r
    ensures !SdcConforms(sdc) ==> r == {}
  {
    if SdcConforms(sdc) then set f | f in sdc.value && f != TimingSdc else {}
  }

  /** The folder after the check: exactly `timing.sdc` when it conformed, unchanged otherwise. */
  function CleanedSdc(sdc: Option<set<string>>): (r: Option<set<string>>)
    ensures SdcConforms(sdc) ==> r == Some({TimingSdc})
    ensures !SdcConforms(sdc) ==> r == sdc
    ensures SdcConforms(r) <==> SdcConforms(sdc)
  {
    if SdcConforms(sdc) then Some(sdc.value - SdcDeletions(sdc)) else sdc
  }

  /** Checking a folder a second time finds it conforming exactly as before and deletes nothing more. */
  lemma CleanedSdcIdempotent(sdc: Option<set<string>>)
    ensures CleanedSdc(CleanedSdc(sdc)) == CleanedSdc(sdc)
    ensures SdcDeletions(CleanedSdc(sdc)) == {}
  {
    if SdcConforms(sdc) {
      assert SdcDeletions(Some({TimingSdc})) + {TimingSdc} == {TimingSdc};
    }
  }
}
