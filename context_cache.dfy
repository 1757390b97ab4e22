/** The context resolver: the styling function's context, obtained once
    per styling function by compiling a probe callback, and cached by the
    styling function's identity. */
module ContextCache {
  import opened Values
  import opened Tokens

  /** The cache: styling-function identity to the context captured for it
      (None when the probe was never called back). */
  type Entries = map<nat, Option<Context>>

  /** `contextCache.get(tw)`: None when nothing, or nothing defined, is
      cached. */
  function Cached(entries: Entries, tw: Styler): Option<Context> {
    if tw.handle in entries then entries[tw.handle] else None
  }

  /** What one `getContext(tw)` returns, the cache afterwards, and whether
      it invoked the styling function with the probe. */
  datatype Fetched = Fetched(ctx: Option<Context>, entries: Entries, probed: bool)

  /** `getContext` on the cache contents. The styling function is invoked
      exactly when no defined context is cached for it; afterwards the
      cache holds what was returned, and no other entry changed. */
  function Fetch(entries: Entries, tw: Styler): (r: Fetched)
    ensures r.probed <==> Cached(entries, tw).None?
    ensures !r.probed ==> r.ctx == Cached(entries, tw) && r.entries == entries
    ensures Cached(r.entries, tw) == r.ctx
    ensures r.entries.Keys == entries.Keys + {tw.handle}
    ensures forall k :: k in entries && k != tw.handle ==> r.entries[k] == entries[k]
    ensures r.ctx.None? ==> tw.probe.None?
  {
    var cached := Cached(entries, tw);
    if cached.Some? then Fetched(cached, entries, false)
    else Fetched(tw.probe, entries[tw.handle := tw.probe], true)
  }

  /** The cache holds nothing for `tw` that `tw` itself would not hand
      the probe. */
  predicate Agrees(entries: Entries, tw: Styler) {
    Cached(entries, tw).Some? ==> Cached(entries, tw) == tw.probe
  }

  /** The cache is transparent: while it agrees with the styling
      function, a lookup returns exactly the context the styling function
      hands its callbacks, and the cache keeps agreeing. */
  lemma FetchTransparent(entries: Entries, tw: Styler)
    requires Agrees(entries, tw)
    ensures Fetch(entries, tw).ctx == tw.probe
    ensures Agrees(Fetch(entries, tw).entries, tw)
  {
  }

  /** After one lookup, a second one for the same styling function
      returns the same context, and invokes the styling function again
      only if the first probe was never called back. */
  lemma SecondFetch(entries: Entries, tw: Styler)
    ensures var first := Fetch(entries, tw);
            var second := Fetch(first.entries, tw);
            && second.ctx == first.ctx
            && second.entries == first.entries
            && (second.probed <==> first.ctx.None?)
  {
  }

  /** The module-level cache, updated in place by `getContext`. */
  class Cache {
    var entries: Entries
    /** The identities of the styling functions invoked with the probe,
        in order. */
    ghost var probes: seq<nat>

    constructor ()
      ensures entries == map[] && probes == []
    {
      entries := map[];
      probes := [];
    }

    /** `getContext(tw)`. */
    method Get(tw: Styler) returns (ctx: Option<Context>)
      modifies this
      ensures ctx == Fetch(old(entries), tw).ctx
      ensures entries == Fetch(old(entries), tw).entries
      ensures probes == old(probes) + (if Fetch(old(entries), tw).probed then [tw.handle] else [])
    {
      ctx := if tw.handle in entries then entries[tw.handle] else None;
      if ctx.None? {
        // tw((_) => { context = _; return '' }): the callback sees tw's context, if tw calls it
        ctx := tw.probe;
        entries := entries[tw.handle := ctx];
        probes := probes + [tw.handle];
      }
    }
  }
}
