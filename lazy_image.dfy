/** The lazy full-image loader of composables/useLazyImage.ts: a photo tile shows its thumbnail
    at once and swaps in the full-resolution image once a preload of it has succeeded.

    Browser timers and `Image` elements are modelled by identifiers. A timer scheduled with
    `setTimeout` is pending until it fires or is cleared; a preload element keeps its `onload` /
    `onerror` handlers attached until one of them runs or the handlers are nulled. The firing of
    a timer and the completion of a preload are events the environment delivers by calling
    `TimerFired`, `PreloadLoaded` or `PreloadFailed`. */
module LazyImage {
  import opened Js

  const DEFAULT_LOAD_DELAY: int := 1000
  const DEFAULT_PRELOAD_ON_HOVER: bool := true

  /** `asset?.thumbnail_url || asset?.src || ''`. */
  function ThumbnailUrl(asset: Value): (url: Value)
    ensures url == Str("") || Truthy(url)
    ensures Truthy(OptionalProp(asset, "thumbnail_url")) ==> url == OptionalProp(asset, "thumbnail_url")
    ensures !Truthy(OptionalProp(asset, "thumbnail_url")) && Truthy(OptionalProp(asset, "src"))
      ==> url == OptionalProp(asset, "src")
    ensures !Truthy(OptionalProp(asset, "thumbnail_url")) && !Truthy(OptionalProp(asset, "src"))
      ==> url == Str("")
  {
    Or(Or(OptionalProp(asset, "thumbnail_url"), OptionalProp(asset, "src")), Str(""))
  }

  /** `asset?.original_url || asset?.storage_url || asset?.src || ''`. */
  function FullUrl(asset: Value): (url: Value)
    ensures url == Str("") || Truthy(url)
    ensures Truthy(OptionalProp(asset, "original_url")) ==> url == OptionalProp(asset, "original_url")
    ensures !Truthy(OptionalProp(asset, "original_url")) && Truthy(OptionalProp(asset, "storage_url"))
      ==> url == OptionalProp(asset, "storage_url")
    ensures (!Truthy(OptionalProp(asset, "original_url")) && !Truthy(OptionalProp(asset, "storage_url"))
             && Truthy(OptionalProp(asset, "src")))
      ==> url == OptionalProp(asset, "src")
    ensures (!Truthy(OptionalProp(asset, "original_url")) && !Truthy(OptionalProp(asset, "storage_url"))
             && !Truthy(OptionalProp(asset, "src")))
      ==> url == Str("")
  {
    Or(Or(Or(OptionalProp(asset, "original_url"), OptionalProp(asset, "storage_url")),
      OptionalProp(asset, "src")), Str(""))
  }

  /** The preload element a `preloadImage` slot holds, as a set: empty when the slot is null. */
  function Held(slot: Option<nat>): set<nat> {
    if slot.Some? then {slot.value} else {}
  }

  class LazyImage {
    const loadDelay: int
    const preloadOnHover: bool

    var isFullImageLoaded: bool
    var isFullImageLoading: bool
    var currentImageUrl: Value
    var fullImageUrl: Value

    /** The handle held in `loadTimeout`, if any. */
    var loadTimeout: Option<nat>
    /** Timers scheduled and neither fired nor cleared. */
    var pendingTimers: set<nat>
    /** How many timers have been scheduled; the next handle. */
    var timersScheduled: nat

    /** The element held in `preloadImage`, if any. */
    var preloadImage: Option<nat>
    /** Preloads whose `onload`/`onerror` handlers are still attached and have not run. */
    var attached: set<nat>
    /** The `src` each preload element was given, indexed by element. */
    var preloads: seq<Value>

    ghost predicate Valid()
      reads this
    {
      && !(isFullImageLoaded && isFullImageLoading)
      && (forall t :: t in pendingTimers ==> loadTimeout == Some(t))
      && (loadTimeout.Some? ==> loadTimeout.value < timersScheduled)
      && (forall p :: p in attached ==> p < |preloads|)
      && (preloadImage.Some? ==> preloadImage.value in attached)
      && (isFullImageLoading ==> preloadImage.Some?)
    }

    /** The full image may be requested: not loaded, not loading, and there is a URL to load. */
    predicate CanLoad()
      reads this
    {
      !isFullImageLoaded && !isFullImageLoading && Truthy(fullImageUrl)
    }

    /** `useLazyImage(asset, options)`, including the immediate first run of the asset watcher,
        which recomputes the same URLs and flags. */
    constructor(asset: Value, loadDelay: Option<int>, preloadOnHover: Option<bool>)
      ensures Valid()
      ensures this.loadDelay == (if loadDelay.Some? then loadDelay.value else DEFAULT_LOAD_DELAY)
      ensures this.preloadOnHover
        == (if preloadOnHover.Some? then preloadOnHover.value else DEFAULT_PRELOAD_ON_HOVER)
      ensures currentImageUrl == ThumbnailUrl(asset) && fullImageUrl == FullUrl(asset)
      ensures !isFullImageLoaded && !isFullImageLoading
      ensures loadTimeout.None? && pendingTimers == {} && timersScheduled == 0
      ensures preloadImage.None? && attached == {} && preloads == []
    {
      this.loadDelay := if loadDelay.Some? then loadDelay.value else DEFAULT_LOAD_DELAY;
      this.preloadOnHover := if preloadOnHover.Some? then preloadOnHover.value else DEFAULT_PRELOAD_ON_HOVER;
      isFullImageLoaded := false;
      isFullImageLoading := false;
      currentImageUrl := ThumbnailUrl(asset);
      fullImageUrl := FullUrl(asset);
      loadTimeout := None;
      pendingTimers := {};
      timersScheduled := 0;
      preloadImage := None;
      attached := {};
      preloads := [];
      new;
      AssetChanged(asset);
    }

    /** The asset watcher. A falsy asset is ignored. Otherwise both URLs are recomputed, both
        flags drop, and the pending timer is cleared. A preload already in flight is not
        detached: its handlers still run when it completes. */
    method AssetChanged(newAsset: Value)
      requires Valid()
      modifies this
      ensures Valid()
      ensures !Truthy(newAsset) ==> unchanged(this)
      ensures Truthy(newAsset) ==>
        && currentImageUrl == ThumbnailUrl(newAsset) && fullImageUrl == FullUrl(newAsset)
        && !isFullImageLoaded && !isFullImageLoading
        && loadTimeout.None? && pendingTimers == {} && timersScheduled == old(timersScheduled)
        && preloadImage == old(preloadImage) && attached == old(attached) && preloads == old(preloads)
    {
      if Truthy(newAsset) {
        currentImageUrl := ThumbnailUrl(newAsset);
        fullImageUrl := FullUrl(newAsset);
        isFullImageLoaded := false;
        isFullImageLoading := false;
        if loadTimeout.Some? {
          pendingTimers := pendingTimers - {loadTimeout.value};
          loadTimeout := None;
        }
      }
    }

    /** Schedules `LoadFullImage` after `loadDelay`, replacing the timer already held. */
    method StartLoadingFullImage()
      requires Valid()
      modifies this
      ensures Valid()
      ensures !old(CanLoad()) ==> unchanged(this)
      ensures old(CanLoad()) ==>
        && loadTimeout == Some(old(timersScheduled)) && pendingTimers == {old(timersScheduled)}
        && timersScheduled == old(timersScheduled) + 1
        && isFullImageLoaded == old(isFullImageLoaded) && isFullImageLoading == old(isFullImageLoading)
        && currentImageUrl == old(currentImageUrl) && fullImageUrl == old(fullImageUrl)
        && preloadImage == old(preloadImage) && attached == old(attached) && preloads == old(preloads)
    {
      if isFullImageLoaded || isFullImageLoading || !Truthy(fullImageUrl) {
        return;
      }
      if loadTimeout.Some? {
        pendingTimers := pendingTimers - {loadTimeout.value};
      }
      assert pendingTimers == {};
      loadTimeout := Some(timersScheduled);
      pendingTimers := {timersScheduled};
      timersScheduled := timersScheduled + 1;
    }

    /** Starts one preload of the full URL at once. */
    method LoadFullImage()
      requires Valid()
      modifies this
      ensures Valid()
      ensures !old(CanLoad()) ==> unchanged(this)
      ensures old(CanLoad()) ==>
        && isFullImageLoading && !isFullImageLoaded
        && preloads == old(preloads) + [fullImageUrl]
        && preloadImage == Some(|old(preloads)|) && attached == old(attached) + {|old(preloads)|}
        && currentImageUrl == old(currentImageUrl) && fullImageUrl == old(fullImageUrl)
        && loadTimeout == old(loadTimeout) && pendingTimers == old(pendingTimers)
        && timersScheduled == old(timersScheduled)
    {
      if isFullImageLoaded || isFullImageLoading || !Truthy(fullImageUrl) {
        return;
      }
      isFullImageLoading := true;
      var image := |preloads|;
      preloads := preloads + [fullImageUrl];
      attached := attached + {image};
      preloadImage := Some(image);
    }

    /** The scheduled timer fires and calls `LoadFullImage`. The handle stays in `loadTimeout`. */
    method TimerFired(timer: nat)
      requires Valid() && timer in pendingTimers
      modifies this
      ensures Valid()
      ensures pendingTimers == old(pendingTimers) - {timer} && loadTimeout == old(loadTimeout)
        && timersScheduled == old(timersScheduled)
      ensures old(CanLoad()) ==>
        && isFullImageLoading && preloadImage == Some(|old(preloads)|)
        && preloads == old(preloads) + [fullImageUrl] && attached == old(attached) + {|old(preloads)|}
      ensures !old(CanLoad()) ==>
        && preloads == old(preloads) && attached == old(attached) && preloadImage == old(preloadImage)
        && isFullImageLoading == old(isFullImageLoading)
      ensures currentImageUrl == old(currentImageUrl) && fullImageUrl == old(fullImageUrl)
        && isFullImageLoaded == old(isFullImageLoaded)
    {
      pendingTimers := pendingTimers - {timer};
      LoadFullImage();
    }

    /** Preload `image` succeeded. A detached preload is ignored; an attached one shows the
        current full URL and marks the full image loaded. */
    method PreloadLoaded(image: nat)
      requires Valid()
      modifies this
      ensures Valid()
      ensures image !in old(attached) ==> unchanged(this)
      ensures image in old(attached) ==>
        && currentImageUrl == fullImageUrl && isFullImageLoaded && !isFullImageLoading
        && preloadImage.None? && attached == old(attached) - {image}
        && fullImageUrl == old(fullImageUrl) && preloads == old(preloads)
        && loadTimeout == old(loadTimeout) && pendingTimers == old(pendingTimers)
        && timersScheduled == old(timersScheduled)
    {
      if image in attached {
        attached := attached - {image};
        currentImageUrl := fullImageUrl;
        isFullImageLoaded := true;
        isFullImageLoading := false;
        preloadImage := None;
      }
    }

    /** Preload `image` failed. A detached preload is ignored; an attached one only ends the
        loading state: the thumbnail stays and the image is not marked loaded. */
    method PreloadFailed(image: nat)
      requires Valid()
      modifies this
      ensures Valid()
      ensures image !in old(attached) ==> unchanged(this)
      ensures image in old(attached) ==>
        && !isFullImageLoading && preloadImage.None? && attached == old(attached) - {image}
        && isFullImageLoaded == old(isFullImageLoaded) && currentImageUrl == old(currentImageUrl)
        && fullImageUrl == old(fullImageUrl) && preloads == old(preloads)
        && loadTimeout == old(loadTimeout) && pendingTimers == old(pendingTimers)
        && timersScheduled == old(timersScheduled)
    {
      if image in attached {
        attached := attached - {image};
        isFullImageLoading := false;
        preloadImage := None;
      }
    }

    /** Clears the held timer, detaches the held preload and ends the loading state. */
    method CancelLoadingFullImage()
      requires Valid()
      modifies this
      ensures Valid()
      ensures loadTimeout.None? && pendingTimers == {} && timersScheduled == old(timersScheduled)
      ensures preloadImage.None? && !isFullImageLoading
      ensures attached == old(attached) - Held(old(preloadImage))
      ensures isFullImageLoaded == old(isFullImageLoaded) && currentImageUrl == old(currentImageUrl)
        && fullImageUrl == old(fullImageUrl) && preloads == old(preloads)
    {
      if loadTimeout.Some? {
        pendingTimers := pendingTimers - {loadTimeout.value};
        loadTimeout := None;
      }
      if preloadImage.Some? {
        attached := attached - {preloadImage.value};
        preloadImage := None;
      }
      isFullImageLoading := false;
    }

    /** Hovering starts the delayed load when hover preloading is on and the image is not loaded. */
    method HandleMouseEnter()
      requires Valid()
      modifies this
      ensures Valid()
      ensures !(preloadOnHover && old(CanLoad())) ==> unchanged(this)
      ensures preloadOnHover && old(CanLoad()) ==>
        && loadTimeout == Some(old(timersScheduled)) && pendingTimers == {old(timersScheduled)}
        && timersScheduled == old(timersScheduled) + 1
        && isFullImageLoaded == old(isFullImageLoaded) && isFullImageLoading == old(isFullImageLoading)
        && currentImageUrl == old(currentImageUrl) && fullImageUrl == old(fullImageUrl)
        && preloadImage == old(preloadImage) && preloads == old(preloads) && attached == old(attached)
    {
      if preloadOnHover && !isFullImageLoaded {
        StartLoadingFullImage();
      }
    }

    /** Leaving the tile lets a pending load go on. */
    method HandleMouseLeave()
      requires Valid()
      ensures Valid()
    {
    }

    /** Clicking a tile whose full image is not loaded cancels what is pending and loads now.
        Without a full URL the click only cancels. */
    method HandleClick()
      requires Valid()
      modifies this
      ensures Valid()
      ensures old(isFullImageLoaded) ==> unchanged(this)
      ensures !old(isFullImageLoaded) ==>
        && loadTimeout.None? && pendingTimers == {} && timersScheduled == old(timersScheduled)
        && (Truthy(fullImageUrl) <==> isFullImageLoading)
        && (Truthy(fullImageUrl) ==>
              && preloadImage == Some(|old(preloads)|)
              && preloads == old(preloads) + [fullImageUrl]
              && attached == old(attached) - Held(old(preloadImage)) + {|old(preloads)|})
        && (!Truthy(fullImageUrl) ==>
              && preloadImage.None? && preloads == old(preloads)
              && attached == old(attached) - Held(old(preloadImage)))
        && !isFullImageLoaded && currentImageUrl == old(currentImageUrl) && fullImageUrl == old(fullImageUrl)
    {
      if !isFullImageLoaded {
        CancelLoadingFullImage();
        LoadFullImage();
      }
    }

    /** The component unmounts: the same clean-up as a cancel. */
    method Unmount()
      requires Valid()
      modifies this
      ensures Valid()
      ensures loadTimeout.None? && pendingTimers == {} && timersScheduled == old(timersScheduled)
      ensures preloadImage.None? && !isFullImageLoading
      ensures attached == old(attached) - Held(old(preloadImage))
      ensures isFullImageLoaded == old(isFullImageLoaded) && currentImageUrl == old(currentImageUrl)
        && fullImageUrl == old(fullImageUrl) && preloads == old(preloads)
    {
      CancelLoadingFullImage();
    }

    /** At most one timer is ever pending: the one `loadTimeout` holds. */
    lemma AtMostOneTimerPending()
      requires Valid()
      ensures |pendingTimers| <= 1
      ensures pendingTimers != {} ==> loadTimeout.Some? && pendingTimers == {loadTimeout.value}
    {
      if pendingTimers != {} {
        var t :| t in pendingTimers;
        assert pendingTimers == {t};
      }
    }

    /** At most one preload is in flight on behalf of the current loading state: a loading image
        is waiting on the preload `preloadImage` holds, whose handlers are still attached. */
    lemma LoadingHasAttachedPreload()
      requires Valid() && isFullImageLoading
      ensures !isFullImageLoaded
      ensures preloadImage.Some? && preloadImage.value in attached && preloadImage.value < |preloads|
    {
    }
  }
}
