/** The draft of a new listing kept while the user walks through the "post an ad" pages
    (src/stores/post_store.ts). Uploaded files and map locations are opaque to the store,
    so they are type parameters. */
module PostStore {
  import opened Wrappers

  datatype MyAdsSort = NewToOldest | OldestToNew | MostLiked

  /** The eight data fields of the store. */
  datatype Draft<File, Place> = Draft(
    title: string,
    description: string,
    images: seq<File>,
    location: Option<Place>,
    category: string,
    tags: seq<string>,
    price: Option<real>,
    sortMyAd: MyAdsSort)

  /** `initialState` */
  function InitialDraft<File, Place>(): Draft<File, Place> {
    Draft("", "", [], None, "", [], None, NewToOldest)
  }

  lemma InitialDraftIsEmpty<File, Place>()
    ensures var d := InitialDraft<File, Place>();
            && d.title == "" && d.description == "" && d.category == ""
            && |d.images| == 0 && |d.tags| == 0
            && d.location.None? && d.price.None?
            && d.sortMyAd == NewToOldest
  {
  }

  // ---------------------------------------------------------------------------
  // List operations of the actions

  /** `images.filter((_, i) => i !== index)`: drop the element at `index`, if there is one. */
  function RemoveAt<T>(s: seq<T>, index: int): (r: seq<T>)
    ensures 0 <= index < |s| ==> |r| == |s| - 1
    ensures 0 <= index < |s| ==> forall i :: 0 <= i < index ==> r[i] == s[i]
    ensures 0 <= index < |s| ==> forall i :: index <= i < |r| ==> r[i] == s[i + 1]
    ensures !(0 <= index < |s|) ==> r == s
  {
    if 0 <= index < |s| then s[..index] + s[index + 1..] else s
  }

  predicate NoDuplicates(tags: seq<string>) {
    forall i, j :: 0 <= i < j < |tags| ==> tags[i] != tags[j]
  }

  /** `tags.includes(tag) ? tags : [...tags, tag]` */
  function AddIfAbsent(tags: seq<string>, tag: string): (r: seq<string>)
    ensures tag in r
    ensures tag in tags ==> r == tags
    ensures tag !in tags ==> |r| == |tags| + 1 && r[..|tags|] == tags
    ensures NoDuplicates(tags) ==> NoDuplicates(r)
  {
    if tag in tags then tags else tags + [tag]
  }

  /** `tags.filter(t => t !== tag)` */
  function RemoveAll(tags: seq<string>, tag: string): (r: seq<string>)
    ensures |r| <= |tags|
    ensures forall t :: t in r <==> t in tags && t != tag
  {
    if tags == [] then []
    else (if tags[0] == tag then [] else [tags[0]]) + RemoveAll(tags[1..], tag)
  }

  /** The remaining tags keep their relative order: removal distributes over concatenation. */
  lemma {:induction false} RemoveAllConcat(a: seq<string>, b: seq<string>, tag: string)
    ensures RemoveAll(a + b, tag) == RemoveAll(a, tag) + RemoveAll(b, tag)
    decreases |a|
  {
    if a == [] {
      assert a + b == b;
    } else {
      assert (a + b)[1..] == a[1..] + b;
      RemoveAllConcat(a[1..], b, tag);
    }
  }

  /** A tag that is not there is not removed: nothing changes. */
  lemma {:induction false} RemoveAllAbsent(tags: seq<string>, tag: string)
    requires tag !in tags
    ensures RemoveAll(tags, tag) == tags
    decreases |tags|
  {
    if tags != [] {
      RemoveAllAbsent(tags[1..], tag);
    }
  }

  lemma {:induction false} RemoveAllKeepsNoDuplicates(tags: seq<string>, tag: string)
    requires NoDuplicates(tags)
    ensures NoDuplicates(RemoveAll(tags, tag))
    decreases |tags|
  {
    if tags != [] {
      RemoveAllKeepsNoDuplicates(tags[1..], tag);
      var rest := RemoveAll(tags[1..], tag);
      assert tags[0] !in tags[1..];
      assert tags[0] !in rest;
    }
  }

  /** Removing a tag just added gives the old tags back when it was absent. */
  lemma AddThenRemove(tags: seq<string>, tag: string)
    requires tag !in tags
    ensures RemoveAll(AddIfAbsent(tags, tag), tag) == tags
  {
    RemoveAllConcat(tags, [tag], tag);
    RemoveAllAbsent(tags, tag);
    assert RemoveAll([tag], tag) == [];
  }

  // ---------------------------------------------------------------------------
  // The store

  class Store<File, Place> {
    var title: string
    var description: string
    var images: seq<File>
    var location: Option<Place>
    var category: string
    var tags: seq<string>
    var price: Option<real>
    var sortMyAd: MyAdsSort

    function Snapshot(): Draft<File, Place>
      reads this
    {
      Draft(title, description, images, location, category, tags, price, sortMyAd)
    }

    constructor ()
      ensures Snapshot() == InitialDraft()
    {
      title, description, images, location := "", "", [], None;
      category, tags, price, sortMyAd := "", [], None, NewToOldest;
    }

    method SetTitle(title: string)
      modifies this
      ensures Snapshot() == old(Snapshot()).(title := title)
    {
      this.title := title;
    }

    method SetDescription(description: string)
      modifies this
      ensures Snapshot() == old(Snapshot()).(description := description)
    {
      this.description := description;
    }

    /** Replaces the whole list as given; no deduplication. */
    method SetImages(images: seq<File>)
      modifies this
      ensures Snapshot() == old(Snapshot()).(images := images)
    {
      this.images := images;
    }

    method AddImage(image: File)
      modifies this
      ensures Snapshot() == old(Snapshot()).(images := old(images) + [image])
      ensures |images| == |old(images)| + 1 && images[..|old(images)|] == old(images)
    {
      images := images + [image];
    }

    method RemoveImage(index: int)
      modifies this
      ensures Snapshot() == old(Snapshot()).(images := RemoveAt(old(images), index))
    {
      images := RemoveAt(images, index);
    }

    method SetLocation(location: Place)
      modifies this
      ensures Snapshot() == old(Snapshot()).(location := Some(location))
    {
      this.location := Some(location);
    }

    method ClearLocation()
      modifies this
      ensures Snapshot() == old(Snapshot()).(location := None)
    {
      location := None;
    }

    method SetCategory(category: string)
      modifies this
      ensures Snapshot() == old(Snapshot()).(category := category)
    {
      this.category := category;
    }

    /** Replaces the whole list as given; no deduplication. */
    method SetTags(tags: seq<string>)
      modifies this
      ensures Snapshot() == old(Snapshot()).(tags := tags)
    {
      this.tags := tags;
    }

    method AddTag(tag: string)
      modifies this
      ensures Snapshot() == old(Snapshot()).(tags := AddIfAbsent(old(tags), tag))
      ensures NoDuplicates(old(tags)) ==> NoDuplicates(tags)
    {
      if tag !in tags {
        tags := tags + [tag];
      }
    }

    method RemoveTag(tag: string)
      modifies this
      ensures Snapshot() == old(Snapshot()).(tags := RemoveAll(old(tags), tag))
      ensures tag !in tags
    {
      tags := RemoveAll(tags, tag);
    }

    method SetPrice(price: Option<real>)
      modifies this
      ensures Snapshot() == old(Snapshot()).(price := price)
    {
      this.price := price;
    }

    method SetSortMyAd(sortMyAd: MyAdsSort)
      modifies this
      ensures Snapshot() == old(Snapshot()).(sortMyAd := sortMyAd)
    {
      this.sortMyAd := sortMyAd;
    }

    method ResetPost()
      modifies this
      ensures Snapshot() == InitialDraft()
    {
      title, description, images, location := "", "", [], None;
      category, tags, price, sortMyAd := "", [], None, NewToOldest;
    }
  }
}
