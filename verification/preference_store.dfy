/**
 * The per-user preference store: each user has a collection of saved
 * palettes and a collection of saved fonts, each holding at most five
 * documents. The document database is modelled as an in-memory map from
 * user to the documents of that user's collection, in the store's order.
 */
module PreferenceStore {
  import opened Wrappers
  import ColorUtils

  type UserId = string

  /** A document identifier. The database invents a fresh one for every new document. */
  type DocId = nat

  /** The capacity of each per-user collection. */
  const MaxItems: nat := 5

  /** A stored document: its identifier and its fields. */
  datatype Doc<D> = Doc(id: DocId, data: D)

  /** The fields of a saved palette: the palette itself plus its creation time. */
  datatype PaletteData = PaletteData(palette: ColorUtils.Palette, createdAt: string)

  /** The fields of a saved font. */
  datatype FontData = FontData(fontFamily: string, createdAt: string)

  /** Why a save was refused. */
  datatype SaveError = AlreadySaved | LimitReached

  /** The message a refused palette save throws with. */
  function PaletteErrorMessage(e: SaveError): (message: string)
    ensures message == "This palette is already saved" <==> e == AlreadySaved
    ensures message == "Maximum number of palettes (5) reached" <==> e == LimitReached
  {
    match e
    case AlreadySaved => "This palette is already saved"
    case LimitReached => "Maximum number of palettes (5) reached"
  }

  /** The message a refused font save throws with. */
  function FontErrorMessage(e: SaveError): (message: string)
    ensures message == "This font is already saved" <==> e == AlreadySaved
    ensures message == "Maximum number of fonts (5) reached" <==> e == LimitReached
  {
    match e
    case AlreadySaved => "This font is already saved"
    case LimitReached => "Maximum number of fonts (5) reached"
  }

  /**
   * The thrown message tells the two refusals apart, and a palette refusal
   * from a font refusal.
   */
  lemma ErrorMessagesDistinguished(e: SaveError, f: SaveError)
    ensures PaletteErrorMessage(e) == PaletteErrorMessage(f) <==> e == f
    ensures FontErrorMessage(e) == FontErrorMessage(f) <==> e == f
    ensures PaletteErrorMessage(e) != FontErrorMessage(f)
  {
  }

  function Ids<D>(docs: seq<Doc<D>>): set<DocId> {
    set i | 0 <= i < |docs| :: docs[i].id
  }

  ghost predicate UniqueIds<D>(docs: seq<Doc<D>>) {
    forall i, j :: 0 <= i < j < |docs| ==> docs[i].id != docs[j].id
  }

  ghost predicate IdsBelow<D>(docs: seq<Doc<D>>, bound: DocId) {
    forall i :: 0 <= i < |docs| ==> docs[i].id < bound
  }

  /** `docs.some(d => matches(d.data))`: whether some document's fields satisfy `matches`. */
  function Any<D>(docs: seq<Doc<D>>, matches: D -> bool): (found: bool)
    ensures found <==> exists i :: 0 <= i < |docs| && matches(docs[i].data)
  {
    if docs == [] then false
    else if matches(docs[0].data) then true
    else
      var found := Any(docs[1..], matches);
      assert forall i :: 1 <= i < |docs| ==> docs[i] == docs[1..][i - 1];
      found
  }

  /**
   * The checks a save runs on the collection it read, in the source's order:
   * a duplicate is refused before the capacity is looked at.
   */
  function SaveCheck<D>(docs: seq<Doc<D>>, isDuplicate: D -> bool): (refusal: Option<SaveError>)
    ensures refusal == Some(AlreadySaved) <==> exists i :: 0 <= i < |docs| && isDuplicate(docs[i].data)
    ensures refusal == Some(LimitReached) <==>
      (forall i :: 0 <= i < |docs| ==> !isDuplicate(docs[i].data)) && |docs| >= MaxItems
    ensures refusal.None? ==> |docs| < MaxItems
  {
    if Any(docs, isDuplicate) then Some(AlreadySaved)
    else if |docs| >= MaxItems then Some(LimitReached)
    else None
  }

  /** Two palettes are the same saved palette when their colour lists are equal; metadata is ignored. */
  function SameColors(palette: ColorUtils.Palette): (isDuplicate: PaletteData -> bool)
    ensures forall d: PaletteData :: isDuplicate(d) <==> d.palette.colors == palette.colors
  {
    (d: PaletteData) => d.palette.colors == palette.colors
  }

  /** Two saved fonts are the same when their family names are equal; the creation time is ignored. */
  function SameFamily(font: string): (isDuplicate: FontData -> bool)
    ensures forall d: FontData :: isDuplicate(d) <==> d.fontFamily == font
  {
    (d: FontData) => d.fontFamily == font
  }

  /** A listing query with `limit(5)`: the first five documents in the store's order. */
  function Limited<D>(docs: seq<Doc<D>>): (listed: seq<Doc<D>>)
    ensures |listed| == if |docs| < MaxItems then |docs| else MaxItems
    ensures listed <= docs
  {
    if |docs| <= MaxItems then docs else docs[..MaxItems]
  }

  /** The collection after the document `id` is deleted; deleting an absent id changes nothing. */
  function Without<D(==)>(docs: seq<Doc<D>>, id: DocId): (rest: seq<Doc<D>>)
    ensures forall i :: 0 <= i < |rest| ==> rest[i] in docs && rest[i].id != id
    ensures forall i :: 0 <= i < |docs| && docs[i].id != id ==> docs[i] in rest
    ensures id !in Ids(docs) ==> rest == docs
    ensures |rest| <= |docs|
  {
    if docs == [] then []
    else
      var tail := Without(docs[1..], id);
      assert docs == [docs[0]] + docs[1..];
      assert id !in Ids(docs) ==> id !in Ids(docs[1..]);
      if docs[0].id == id then tail else [docs[0]] + tail
  }

  /** Every document left by a deletion was in the collection, so its identifier was issued below `bound`. */
  lemma WithoutKeepsBound<D>(docs: seq<Doc<D>>, id: DocId, bound: DocId)
    requires IdsBelow(docs, bound)
    ensures IdsBelow(Without(docs, id), bound)
  {
    var rest := Without(docs, id);
    forall i | 0 <= i < |rest| ensures rest[i].id < bound {
      var k :| 0 <= k < |docs| && docs[k] == rest[i];
    }
  }

  /** Deleting keeps identifiers unique. */
  lemma {:induction false} WithoutKeepsUnique<D>(docs: seq<Doc<D>>, id: DocId)
    requires UniqueIds(docs)
    ensures UniqueIds(Without(docs, id))
  {
    if docs != [] {
      var tail := Without(docs[1..], id);
      assert UniqueIds(docs[1..]);
      WithoutKeepsUnique(docs[1..], id);
      if docs[0].id != id {
        forall j | 0 <= j < |tail| ensures docs[0].id != tail[j].id {
          var k :| 0 <= k < |docs[1..]| && docs[1..][k] == tail[j];
          assert docs[k + 1] == tail[j];
        }
        ConsUnique(docs[0], tail);
      }
    }
  }

  lemma ConsUnique<D>(d: Doc<D>, docs: seq<Doc<D>>)
    requires UniqueIds(docs)
    requires forall j :: 0 <= j < |docs| ==> d.id != docs[j].id
    ensures UniqueIds([d] + docs)
  {
  }

  /** Deleting an id no document carries keeps the collection as it is. */
  lemma {:induction false} WithoutAbsent<D>(docs: seq<Doc<D>>, id: DocId)
    requires forall i :: 0 <= i < |docs| ==> docs[i].id != id
    ensures Without(docs, id) == docs
  {
    if docs != [] {
      assert forall i :: 0 <= i < |docs[1..]| ==> docs[1..][i] == docs[i + 1];
      WithoutAbsent(docs[1..], id);
    }
  }

  /** `Without` on a collection split into its first document and the rest. */
  lemma WithoutCons<D>(docs: seq<Doc<D>>, id: DocId)
    requires docs != []
    ensures Without(docs, id) == (if docs[0].id == id then [] else [docs[0]]) + Without(docs[1..], id)
  {
  }

  lemma UniqueIdsTail<D>(docs: seq<Doc<D>>)
    requires docs != [] && UniqueIds(docs)
    ensures UniqueIds(docs[1..])
  {
    assert forall i :: 0 <= i < |docs[1..]| ==> docs[1..][i] == docs[i + 1];
  }

  lemma HeadIdNotInTail<D>(docs: seq<Doc<D>>)
    requires docs != [] && UniqueIds(docs)
    ensures forall i :: 0 <= i < |docs[1..]| ==> docs[1..][i].id != docs[0].id
  {
    assert forall i :: 0 <= i < |docs[1..]| ==> docs[1..][i] == docs[i + 1];
  }

  /** Cutting out position `k > 0` commutes with splitting off the first element. */
  lemma CutAfterHead<T>(s: seq<T>, k: nat)
    requires 0 < k < |s|
    ensures s[..k] + s[k + 1..] == [s[0]] + (s[1..][..k - 1] + s[1..][k..])
  {
    assert s[..k] == [s[0]] + s[1..][..k - 1];
    assert s[k + 1..] == s[1..][k..];
  }

  /**
   * With unique identifiers, deleting the document at position `k` leaves
   * every other document in place and in its original order.
   */
  lemma {:induction false} WithoutAt<D>(docs: seq<Doc<D>>, k: nat)
    requires UniqueIds(docs) && k < |docs|
    ensures Without(docs, docs[k].id) == docs[..k] + docs[k + 1..]
  {
    var id := docs[k].id;
    WithoutCons(docs, id);
    if k == 0 {
      HeadIdNotInTail(docs);
      WithoutAbsent(docs[1..], id);
    } else {
      assert docs[0].id != id;
      assert docs[1..][k - 1] == docs[k];
      UniqueIdsTail(docs);
      WithoutAt(docs[1..], k - 1);
      CutAfterHead(docs, k);
    }
  }

  /** With unique identifiers, deleting a present id removes exactly one document. */
  lemma {:induction false} WithoutRemovesOne<D>(docs: seq<Doc<D>>, id: DocId)
    requires UniqueIds(docs)
    ensures |Without(docs, id)| == if id in Ids(docs) then |docs| - 1 else |docs|
  {
    if docs != [] {
      assert Ids(docs) == {docs[0].id} + Ids(docs[1..]) by {
        forall x | x in Ids(docs) ensures x in {docs[0].id} + Ids(docs[1..]) {
          var i :| 0 <= i < |docs| && docs[i].id == x;
          if i > 0 { assert docs[1..][i - 1].id == x; }
        }
        forall x | x in Ids(docs[1..]) ensures x in Ids(docs) {
          var i :| 0 <= i < |docs[1..]| && docs[1..][i].id == x;
          assert docs[i + 1].id == x;
        }
      }
      if docs[0].id == id {
        assert id !in Ids(docs[1..]);
      } else {
        WithoutRemovesOne(docs[1..], id);
      }
    }
  }

  /**
   * The documents of every user, as the database holds them. `nextId` stands
   * for the database's generator of fresh document identifiers.
   */
  class Store {
    var palettes: map<UserId, seq<Doc<PaletteData>>>
    var fonts: map<UserId, seq<Doc<FontData>>>
    var nextId: DocId

    /** Every identifier was issued by the generator and identifies one document of its collection. */
    ghost predicate Valid()
      reads this
    {
      && (forall u :: u in palettes ==> UniqueIds(palettes[u]) && IdsBelow(palettes[u], nextId))
      && (forall u :: u in fonts ==> UniqueIds(fonts[u]) && IdsBelow(fonts[u], nextId))
    }

    /** No collection holds more than five documents. */
    ghost predicate WithinCapacity()
      reads this
    {
      && (forall u :: u in palettes ==> |palettes[u]| <= MaxItems)
      && (forall u :: u in fonts ==> |fonts[u]| <= MaxItems)
    }

    function PalettesOf(user: UserId): seq<Doc<PaletteData>>
      reads this
    {
      if user in palettes then palettes[user] else []
    }

    function FontsOf(user: UserId): seq<Doc<FontData>>
      reads this
    {
      if user in fonts then fonts[user] else []
    }

    constructor ()
      ensures Valid() && WithinCapacity()
      ensures palettes == map[] && fonts == map[]
    {
      palettes := map[];
      fonts := map[];
      nextId := 0;
    }

    /**
     * `savePalette(userId, palette)`: refused when a palette with the same
     * colours is already saved, then when five are saved; otherwise the
     * palette is stored with its creation time under a fresh identifier,
     * which is returned.
     */
    method SavePalette(user: UserId, palette: ColorUtils.Palette, createdAt: string)
      returns (r: Result<DocId, string>)
      requires Valid()
      modifies this
      ensures Valid()
      ensures fonts == old(fonts)
      ensures r.Failure? <==> SaveCheck(old(PalettesOf(user)), SameColors(palette)).Some?
      ensures r.Failure? ==>
        && r.error == PaletteErrorMessage(SaveCheck(old(PalettesOf(user)), SameColors(palette)).value)
        && palettes == old(palettes)
      ensures r.Success? ==>
        && r.value !in Ids(old(PalettesOf(user)))
        && palettes == old(palettes)[user := old(PalettesOf(user)) + [Doc(r.value, PaletteData(palette, createdAt))]]
      ensures old(WithinCapacity()) ==> WithinCapacity()
    {
      var docs := PalettesOf(user);
      var refusal := SaveCheck(docs, SameColors(palette));
      if refusal.Some? {
        return Failure(PaletteErrorMessage(refusal.value));
      }
      var id := nextId;
      nextId := nextId + 1;
      palettes := palettes[user := docs + [Doc(id, PaletteData(palette, createdAt))]];
      r := Success(id);
    }

    /** `getUserPalettes(userId)`: at most five of the user's palettes, each with its identifier. */
    function GetUserPalettes(user: UserId): (listed: seq<Doc<PaletteData>>)
      reads this
      ensures |listed| == if |PalettesOf(user)| < MaxItems then |PalettesOf(user)| else MaxItems
      ensures listed <= PalettesOf(user)
      ensures |PalettesOf(user)| <= MaxItems ==> listed == PalettesOf(user)
    {
      Limited(PalettesOf(user))
    }

    /** `deletePalette(userId, paletteId)`: removes that palette if it exists, with no existence check. */
    method DeletePalette(user: UserId, id: DocId)
      requires Valid()
      modifies this
      ensures Valid()
      ensures fonts == old(fonts) && nextId == old(nextId)
      ensures user in old(palettes) ==> palettes == old(palettes)[user := Without(old(palettes)[user], id)]
      ensures user !in old(palettes) ==> palettes == old(palettes)
      ensures id !in Ids(old(PalettesOf(user))) ==> palettes == old(palettes)
      ensures |PalettesOf(user)| == if id in Ids(old(PalettesOf(user))) then |old(PalettesOf(user))| - 1 else |old(PalettesOf(user))|
      ensures old(WithinCapacity()) ==> WithinCapacity()
    {
      if user in palettes {
        WithoutKeepsUnique(palettes[user], id);
        WithoutKeepsBound(palettes[user], id, nextId);
        WithoutRemovesOne(palettes[user], id);
        palettes := palettes[user := Without(palettes[user], id)];
      }
    }

    /** `saveFont(userId, font)`: as `SavePalette`, with a duplicate being an equal family name. */
    method SaveFont(user: UserId, font: string, createdAt: string)
      returns (r: Result<DocId, string>)
      requires Valid()
      modifies this
      ensures Valid()
      ensures palettes == old(palettes)
      ensures r.Failure? <==> SaveCheck(old(FontsOf(user)), SameFamily(font)).Some?
      ensures r.Failure? ==>
        && r.error == FontErrorMessage(SaveCheck(old(FontsOf(user)), SameFamily(font)).value)
        && fonts == old(fonts)
      ensures r.Success? ==>
        && r.value !in Ids(old(FontsOf(user)))
        && fonts == old(fonts)[user := old(FontsOf(user)) + [Doc(r.value, FontData(font, createdAt))]]
      ensures old(WithinCapacity()) ==> WithinCapacity()
    {
      var docs := FontsOf(user);
      var refusal := SaveCheck(docs, SameFamily(font));
      if refusal.Some? {
        return Failure(FontErrorMessage(refusal.value));
      }
      var id := nextId;
      nextId := nextId + 1;
      fonts := fonts[user := docs + [Doc(id, FontData(font, createdAt))]];
      r := Success(id);
    }

    /** `getUserFonts(userId)`: at most five of the user's fonts: identifier, family and creation time. */
    function GetUserFonts(user: UserId): (listed: seq<Doc<FontData>>)
      reads this
      ensures |listed| == if |FontsOf(user)| < MaxItems then |FontsOf(user)| else MaxItems
      ensures listed <= FontsOf(user)
      ensures |FontsOf(user)| <= MaxItems ==> listed == FontsOf(user)
    {
      Limited(FontsOf(user))
    }

    /** `deleteFont(userId, fontId)`: removes that font if it exists, with no existence check. */
    method DeleteFont(user: UserId, id: DocId)
      requires Valid()
      modifies this
      ensures Valid()
      ensures palettes == old(palettes) && nextId == old(nextId)
      ensures user in old(fonts) ==> fonts == old(fonts)[user := Without(old(fonts)[user], id)]
      ensures user !in old(fonts) ==> fonts == old(fonts)
      ensures id !in Ids(old(FontsOf(user))) ==> fonts == old(fonts)
      ensures |FontsOf(user)| == if id in Ids(old(FontsOf(user))) then |old(FontsOf(user))| - 1 else |old(FontsOf(user))|
      ensures old(WithinCapacity()) ==> WithinCapacity()
    {
      if user in fonts {
        WithoutKeepsUnique(fonts[user], id);
        WithoutKeepsBound(fonts[user], id, nextId);
        WithoutRemovesOne(fonts[user], id);
        fonts := fonts[user := Without(fonts[user], id)];
      }
    }
  }

  /**
   * A duplicate is reported as such even when the collection is full: the
   * duplicate check comes first.
   */
  lemma DuplicateReportedBeforeLimit<D>(docs: seq<Doc<D>>, isDuplicate: D -> bool, k: nat)
    requires k < |docs| && isDuplicate(docs[k].data) && |docs| >= MaxItems
    ensures SaveCheck(docs, isDuplicate) == Some(AlreadySaved)
  {
  }

  /**
   * Saving a palette whose colours the user has already saved fails with the
   * duplicate message, whatever the new palette's metadata and creation time,
   * and changes nothing in the store.
   */
  method DuplicateIgnoresMetadata(store: Store, user: UserId, palette: ColorUtils.Palette, createdAt: string, k: nat)
    returns (r: Result<DocId, string>)
    requires store.Valid()
    requires k < |store.PalettesOf(user)| && store.PalettesOf(user)[k].data.palette.colors == palette.colors
    modifies store
    ensures r == Failure("This palette is already saved")
    ensures store.palettes == old(store.palettes) && store.fonts == old(store.fonts)
  {
    r := store.SavePalette(user, palette, createdAt);
  }
}
