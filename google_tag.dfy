/** The conversion-tag loader `loadGoogleTag`. */
module GoogleTag {
  import opened Wrappers
  import opened Text
  import opened Dom

  /** The substring the loader's guard looks for in script sources. */
  const GtagFragment: string := "googletagmanager.com/gtag/js"
  /** The ad-conversion account the loader configures. */
  const ConversionId: string := "AW-17787737097"
  /** The script the loader appends: https://www.googletagmanager.com/gtag/js?id=AW-17787737097 */
  const GtagSrc: string := "https://www." + GtagFragment + "?id=" + ConversionId

  /** The two entries a first load pushes: `['js', now]`, then `['config', ConversionId]`. */
  function TagEntries(now: int): (r: seq<Entry>)
    ensures |r| == 2 && r[0] == [Word("js"), Stamp(now)] && r[1] == [Word("config"), Word(ConversionId)]
  {
    [[Word("js"), Stamp(now)], [Word("config"), Word(ConversionId)]]
  }

  /** The document's script sources after a load. */
  function ScriptsAfterLoad(scripts: seq<string>): seq<string> {
    if HasScript(scripts, GtagFragment) then scripts else scripts + [GtagSrc]
  }

  /** `window.dataLayer` after a load at time `now`. */
  function DataLayerAfterLoad(scripts: seq<string>, dataLayer: Option<seq<Entry>>, now: int): Option<seq<Entry>> {
    if HasScript(scripts, GtagFragment) then dataLayer else Some(dataLayer.GetOr([]) + TagEntries(now))
  }

  /** `window.gtag` is assigned after a load exactly when it was before or the guard let the load through. */
  function GtagInstalledAfterLoad(scripts: seq<string>, installed: bool): bool {
    installed || !HasScript(scripts, GtagFragment)
  }

  /**
   * `loadGoogleTag()`: returns at once when a tag script is already present; otherwise
   * keeps (or creates) `dataLayer`, installs `gtag`, pushes the two entries and appends the script.
   */
  method LoadGoogleTag(page: Page, now: int)
    modifies page
    ensures page.scripts == ScriptsAfterLoad(old(page.scripts))
    ensures page.dataLayer == DataLayerAfterLoad(old(page.scripts), old(page.dataLayer), now)
    ensures page.gtagInstalled == GtagInstalledAfterLoad(old(page.scripts), old(page.gtagInstalled))
    ensures page.bodyOverflow == old(page.bodyOverflow)
  {
    if HasScript(page.scripts, GtagFragment) {
      return;
    }
    page.dataLayer := Some(page.dataLayer.GetOr([]));
    ghost var prior := page.dataLayer.value;
    page.gtagInstalled := true;
    page.Gtag([Word("js"), Stamp(now)]);
    page.Gtag([Word("config"), Word(ConversionId)]);
    assert page.dataLayer.value == prior + TagEntries(now);
    page.AppendScript(GtagSrc);
  }

  /** The appended source contains the guarded substring. */
  lemma GtagSrcMatchesGuard()
    ensures Contains(GtagSrc, GtagFragment)
  {
    var head := "https://www.";
    assert GtagSrc[|head|..|head| + |GtagFragment|] == GtagFragment;
    assert OccursAt(GtagSrc, GtagFragment, |head|);
  }

  /** After any load the guard finds a tag script. */
  lemma LoadInstallsGuardedScript(scripts: seq<string>)
    ensures HasScript(ScriptsAfterLoad(scripts), GtagFragment)
  {
    if !HasScript(scripts, GtagFragment) {
      GtagSrcMatchesGuard();
      assert ScriptsAfterLoad(scripts)[|scripts|] == GtagSrc;
    }
  }

  /** A second load, at whatever time, changes neither the scripts nor `dataLayer`. */
  lemma SecondLoadIsNoOp(scripts: seq<string>, dataLayer: Option<seq<Entry>>, now1: int, now2: int)
    ensures ScriptsAfterLoad(ScriptsAfterLoad(scripts)) == ScriptsAfterLoad(scripts)
    ensures DataLayerAfterLoad(ScriptsAfterLoad(scripts), DataLayerAfterLoad(scripts, dataLayer, now1), now2)
         == DataLayerAfterLoad(scripts, dataLayer, now1)
  {
    LoadInstallsGuardedScript(scripts);
  }

  /**
   * A first load keeps any earlier `dataLayer` as a prefix, then adds exactly the `js` and
   * `config` entries in that order, and appends exactly one script, the tag's.
   */
  lemma FirstLoadEffect(scripts: seq<string>, dataLayer: Option<seq<Entry>>, now: int)
    requires !HasScript(scripts, GtagFragment)
    ensures var d := DataLayerAfterLoad(scripts, dataLayer, now).value;
            var prior := dataLayer.GetOr([]);
            |d| == |prior| + 2 && d[..|prior|] == prior &&
            d[|prior|] == [Word("js"), Stamp(now)] && d[|prior| + 1] == [Word("config"), Word(ConversionId)]
    ensures ScriptsAfterLoad(scripts) == scripts + [GtagSrc]
  {
  }

  /** A load leaves exactly one tag script when there was none, and adds none otherwise. */
  lemma LoadCountsOneTagScript(scripts: seq<string>)
    ensures CountMatching(ScriptsAfterLoad(scripts), GtagFragment)
         == if CountMatching(scripts, GtagFragment) == 0 then 1 else CountMatching(scripts, GtagFragment)
  {
    HasScriptIffCount(scripts, GtagFragment);
    if !HasScript(scripts, GtagFragment) {
      GtagSrcMatchesGuard();
      CountAppend(scripts, GtagSrc, GtagFragment);
    }
  }
}
