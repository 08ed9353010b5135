/**
 * The browser globals the core reads and writes, reduced to what it observes:
 * the `src` of every script element in the document, `window.dataLayer`,
 * whether `window.gtag` has been assigned, and `document.body.style.overflow`.
 */
module Dom {
  import opened Wrappers
  import opened Text

  /** One argument of a `gtag(...)` call: a string, or the `new Date()` of the moment of the call. */
  datatype GtagArg = Word(s: string) | Stamp(time: int)

  /** One `dataLayer` entry: the argument list of one `gtag` call. */
  type Entry = seq<GtagArg>

  /** The values `document.body.style.overflow` takes: never set, 'hidden' or 'unset'. */
  datatype Overflow = Initial | Hidden | Unset

  /** `document.querySelector('script[src*="<frag>"]')` finds an element. */
  predicate HasScript(scripts: seq<string>, frag: string) {
    exists i | 0 <= i < |scripts| :: Contains(scripts[i], frag)
  }

  /** The number of script elements whose `src` contains `frag`. */
  function CountMatching(scripts: seq<string>, frag: string): nat {
    if scripts == [] then 0
    else CountMatching(scripts[..|scripts| - 1], frag) + (if Contains(scripts[|scripts| - 1], frag) then 1 else 0)
  }

  /** Appending a script adds one to the count exactly when its `src` matches. */
  lemma CountAppend(scripts: seq<string>, src: string, frag: string)
    ensures CountMatching(scripts + [src], frag) == CountMatching(scripts, frag) + (if Contains(src, frag) then 1 else 0)
  {
    assert (scripts + [src])[..|scripts|] == scripts;
  }

  /** The selector finds an element exactly when at least one script matches. */
  lemma {:induction false} HasScriptIffCount(scripts: seq<string>, frag: string)
    ensures HasScript(scripts, frag) <==> CountMatching(scripts, frag) > 0
  {
    if scripts != [] {
      var init := scripts[..|scripts| - 1];
      HasScriptIffCount(init, frag);
      assert scripts == init + [scripts[|scripts| - 1]];
      if HasScript(init, frag) {
        var i :| 0 <= i < |init| && Contains(init[i], frag);
        assert scripts[i] == init[i];
      }
      if HasScript(scripts, frag) && !Contains(scripts[|scripts| - 1], frag) {
        var i :| 0 <= i < |scripts| && Contains(scripts[i], frag);
        assert init[i] == scripts[i];
      }
    }
  }

  class Page {
    /** The `src` of every script element in the document, in document order. */
    var scripts: seq<string>
    /** `window.dataLayer`; None while it is undefined. */
    var dataLayer: Option<seq<Entry>>
    /** `window.gtag` has been assigned by the tag loader. */
    var gtagInstalled: bool
    /** `document.body.style.overflow`. */
    var bodyOverflow: Overflow

    /** A page as it is found: some scripts, possibly a `dataLayer` set up by other code. */
    constructor (initialScripts: seq<string>, initialDataLayer: Option<seq<Entry>>)
      ensures scripts == initialScripts && dataLayer == initialDataLayer
      ensures !gtagInstalled && bodyOverflow == Initial
    {
      scripts := initialScripts;
      dataLayer := initialDataLayer;
      gtagInstalled := false;
      bodyOverflow := Initial;
    }

    /** `appendChild` of a new script element with the given `src`. */
    method AppendScript(src: string)
      modifies this`scripts
      ensures scripts == old(scripts) + [src]
    {
      scripts := scripts + [src];
    }

    /** The installed `gtag(...args)`: pushes its argument list onto `dataLayer` as one entry. */
    method Gtag(args: Entry)
      requires dataLayer.Some?
      modifies this`dataLayer
      ensures dataLayer == Some(old(dataLayer).value + [args])
    {
      dataLayer := Some(dataLayer.value + [args]);
    }

    /** Assignment to `document.body.style.overflow`. */
    method SetBodyOverflow(o: Overflow)
      modifies this`bodyOverflow
      ensures bodyOverflow == o
    {
      bodyOverflow := o;
    }
  }
}
