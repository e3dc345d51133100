/** The clip image ledger of src/main.rs: `CLIP_IMAGES`, the global list
    of the image property sets handed to a plugin and not yet released,
    with `Clip::get_image_handle_at_time`, `release_image_handle` and
    `check_for_unreleased_images`. The ledger is a class whose one field
    is that list; the store of host objects is passed in and returned. */
module ClipLedger {
  import opened Machine
  import opened Status
  import opened Wrappers
  import opened Handles
  import opened Images
  import opened Host

  // ---------------------------------------------------------------------
  // Looking an image up and handing out its handle
  // ---------------------------------------------------------------------

  /** The image the clip at `clip` has at `time`, if any. */
  function ClipImageAt(st: Store, clip: ObjId, time: real): (r: Option<Image>)
    requires Valid(st) && Is(st.objects, clip, KClip)
    ensures r == ImageAtTime(st.objects[clip].clip.images, time)
    ensures r.Some? ==> Is(st.objects, r.value.properties, KPropertySet)
  {
    var c := st.objects[clip].clip;
    assert Refs(st.objects[clip], st.objects);
    match ImageAtTime(c.images, time)
    case None => None
    case Some(image) =>
      assert image.properties == (if c.images.Static? then c.images.image else c.images.frames[FrameOfTime(time)]).properties;
      Some(image)
  }

  /** The property set at `id` renamed to `name`, its properties kept. */
  function Rename(st: Store, id: ObjId, name: Bytes): (r: Store)
    requires Valid(st) && Is(st.objects, id, KPropertySet)
    ensures Valid(r) && Extends(st, r)
    ensures r.objects == st.objects[id := PropSetObject(PSet(name, PSetAt(st, id).values))]
    ensures r.live == st.live && r.tables == st.tables
  {
    Replace(st, id, PropSetObject(PSet(name, PSetAt(st, id).values)))
  }

  /** The store part of `get_image_handle_at_time`, as written. With no
      image at that time nothing happens. Otherwise `properties.clone()`
      clones the `Arc`, not the property set: the image's own property
      set is renamed (`imageName` is the text `format!` builds from the
      clip's name and the time) and its handle, its own address, is
      issued and returned. */
  function ImageHandleAtTime(st: Store, clip: ObjId, time: real, imageName: Bytes): (r: (Store, Option<Handle>))
    requires Valid(st) && Is(st.objects, clip, KClip)
    ensures Valid(r.0) && Extends(st, r.0)
    ensures ClipImageAt(st, clip, time).None? ==> r == (st, None)
    ensures ClipImageAt(st, clip, time).Some? ==>
      var props := ClipImageAt(st, clip, time).value.properties;
      && r.1 == Some(props)
      && r.0 == Issue(Rename(st, props, imageName), KPropertySet, props)
  {
    match ClipImageAt(st, clip, time)
    case None => (st, None)
    case Some(image) =>
      var s1 := Rename(st, image.properties, imageName);
      var s2 := Issue(s1, KPropertySet, image.properties);
      ExtendsTransitive(st, s1, s2);
      (s2, Some(image.properties))
  }

  /** What the source's comment asks of `get_image_handle_at_time`: a
      unique handle for each call. A deep copy of the image's property
      set (`lock().clone().into_object()`), renamed, gets a new address,
      so its handle differs from every handle issued before. */
  function FreshImageHandleAtTime(st: Store, clip: ObjId, time: real, imageName: Bytes): (r: (Store, Option<Handle>))
    requires Valid(st) && Is(st.objects, clip, KClip)
    ensures Valid(r.0) && Extends(st, r.0)
    ensures ClipImageAt(st, clip, time).None? ==> r == (st, None)
    ensures ClipImageAt(st, clip, time).Some? ==>
      var image := ClipImageAt(st, clip, time).value;
      && r.1.Some? && r.1.value !in st.objects
      && r.0.live == st.live + {r.1.value}
      && r.0.objects == st.objects[r.1.value := PropSetObject(PSet(imageName, PSetAt(st, image.properties).values))]
      && Resolve(r.0, KPropertySet, r.1.value) == Ok(r.1.value)
  {
    match ClipImageAt(st, clip, time)
    case None => (st, None)
    case Some(image) =>
      var (s1, copy) := NewPropertySet(st, imageName, PSetAt(st, image.properties).values);
      var s2 := Issue(s1, KPropertySet, copy);
      ExtendsTransitive(st, s1, s2);
      (s2, Some(copy))
  }

  /** As written, two calls at the same time hand out the same handle, so
      the handles of a clip's image are not unique. */
  lemma ImageHandleRepeats(st: Store, clip: ObjId, time: real, name1: Bytes, name2: Bytes)
    requires Valid(st) && Is(st.objects, clip, KClip)
    requires ClipImageAt(st, clip, time).Some?
    ensures var (s1, h1) := ImageHandleAtTime(st, clip, time, name1);
      && Is(s1.objects, clip, KClip)
      && var (s2, h2) := ImageHandleAtTime(s1, clip, time, name2);
      && h1.Some? && h1 == h2
  {
    var props := ClipImageAt(st, clip, time).value.properties;
    var (s1, h1) := ImageHandleAtTime(st, clip, time, name1);
    assert s1.objects[clip] == st.objects[clip];
    assert ClipImageAt(s1, clip, time) == ClipImageAt(st, clip, time);
  }

  /** With the deep copy, the second call's handle differs from the
      first's. */
  lemma FreshImageHandlesDiffer(st: Store, clip: ObjId, time: real, name1: Bytes, name2: Bytes)
    requires Valid(st) && Is(st.objects, clip, KClip)
    requires ClipImageAt(st, clip, time).Some?
    ensures var (s1, h1) := FreshImageHandleAtTime(st, clip, time, name1);
      && Is(s1.objects, clip, KClip)
      && var (s2, h2) := FreshImageHandleAtTime(s1, clip, time, name2);
      && h1.Some? && h2.Some? && h1 != h2
  {
    var (s1, h1) := FreshImageHandleAtTime(st, clip, time, name1);
    assert s1.objects[clip] == st.objects[clip];
    assert ClipImageAt(s1, clip, time) == ClipImageAt(st, clip, time);
  }

  // ---------------------------------------------------------------------
  // Removing one entry
  // ---------------------------------------------------------------------

  /** `entries` with its first `h` removed, or unchanged without one. */
  function RemoveFirst(entries: seq<ObjId>, h: Handle): (r: seq<ObjId>)
    ensures h in entries ==> |r| == |entries| - 1
    ensures h !in entries ==> r == entries
    decreases |entries|
  {
    if |entries| == 0 then []
    else if entries[0] == h then entries[1..]
    else
      assert h in entries ==> h in entries[1..] by {
        assert entries == [entries[0]] + entries[1..];
      }
      [entries[0]] + RemoveFirst(entries[1..], h)
  }

  /** `RemoveFirst` takes out one occurrence of `h`, if there is one,
      and nothing else. */
  lemma {:induction false} RemoveFirstCount(entries: seq<ObjId>, h: Handle)
    ensures multiset(RemoveFirst(entries, h)) == multiset(entries) - multiset{h}
    decreases |entries|
  {
    if |entries| > 0 {
      assert entries == [entries[0]] + entries[1..];
      if entries[0] != h {
        RemoveFirstCount(entries[1..], h);
      }
    }
  }

  /** `RemoveFirst` takes out the entry at the first position holding
      `h`, and keeps the order of the rest. */
  lemma {:induction false} RemoveFirstAt(entries: seq<ObjId>, h: Handle, i: nat)
    requires i < |entries| && entries[i] == h && h !in entries[..i]
    ensures RemoveFirst(entries, h) == entries[..i] + entries[i + 1..]
    decreases i
  {
    if i > 0 {
      assert entries[1..][..i - 1] == entries[1..i];
      assert entries[1..i] == entries[..i][1..];
      RemoveFirstAt(entries[1..], h, i - 1);
      assert entries[..i] == [entries[0]] + entries[1..][..i - 1];
      assert entries[1..][i..] == entries[i + 1..];
    }
  }

  /** Handing a handle out and then releasing it gives back the ledger
      as it was, up to order: one entry in, one entry out. */
  lemma HandOutThenRelease(entries: seq<ObjId>, h: Handle)
    ensures multiset(RemoveFirst(entries + [h], h)) == multiset(entries)
    ensures h !in entries ==> RemoveFirst(entries + [h], h) == entries
  {
    RemoveFirstCount(entries + [h], h);
    if h !in entries {
      RemoveFirstAt(entries + [h], h, |entries|);
      assert (entries + [h])[..|entries|] == entries;
    }
  }

  // ---------------------------------------------------------------------
  // The ledger
  // ---------------------------------------------------------------------

  /** `CLIP_IMAGES`: the image property sets handed out and not yet
      released, in the order they were handed out. */
  class ImageLedger {
    var entries: seq<ObjId>

    /** `Mutex::new(Vec::new())`. */
    constructor()
      ensures entries == []
    {
      entries := [];
    }

    /** `get_image_handle_at_time`, with the copy its comment asks for
        (`FreshImageHandleAtTime`): when the clip has an image at that
        time, exactly one entry, the new copy of the image's property
        set, is pushed, and its handle returned. */
    method GetImageHandleAtTime(st: Store, clip: ObjId, time: real, imageName: Bytes) returns (st': Store, h: Option<Handle>)
      requires Valid(st) && Is(st.objects, clip, KClip)
      modifies this
      ensures (st', h) == FreshImageHandleAtTime(st, clip, time, imageName)
      ensures h.None? ==> entries == old(entries)
      ensures h.Some? ==> entries == old(entries) + [h.value]
    {
      st', h := FreshImageHandleAtTime(st, clip, time, imageName).0, FreshImageHandleAtTime(st, clip, time, imageName).1;
      if h.Some? {
        entries := entries + [h.value];
      }
    }

    /** `release_image_handle`: the first entry whose handle is `h` is
        removed; a handle that is not in use is a panic. Comparing an
        entry's `to_handle()` with `h` compares addresses; it also
        re-issues the entry's handle, which every entry already has, so
        the handle tables do not change. */
    method ReleaseImageHandle(h: Handle) returns (r: Result<(), Failure>)
      modifies this
      ensures r.Ok? <==> h in old(entries)
      ensures r.Err? ==> r.error.Panic? && entries == old(entries)
      ensures entries == RemoveFirst(old(entries), h)
    {
      var i := 0;
      while i < |entries| && entries[i] != h
        invariant 0 <= i <= |entries|
        invariant h !in entries[..i]
      {
        assert entries[..i + 1] == entries[..i] + [entries[i]];
        i := i + 1;
      }
      if i < |entries| {
        RemoveFirstAt(entries, h, i);
        entries := entries[..i] + entries[i + 1..];
        r := Ok(());
      } else {
        assert entries[..i] == entries;
        r := Err(Panic("Image handle is not in use"));
      }
    }

    /** `check_for_unreleased_images`: passes exactly when no image is in
        use, and panics otherwise. */
    method CheckForUnreleasedImages() returns (r: Result<(), Failure>)
      ensures r.Ok? <==> entries == []
      ensures r.Err? ==> r.error.Panic?
    {
      if |entries| == 0 {
        r := Ok(());
      } else {
        r := Err(Panic("Some images were not released"));
      }
    }
  }
}
