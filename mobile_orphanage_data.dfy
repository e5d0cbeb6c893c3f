/** The mobile data-entry screen of the listing submission: it receives the
    position chosen on the previous screen as a route parameter, keeps the
    draft in component state, adds images one at a time through the gallery
    picker and posts the draft as a multipart body. */
module MobileOrphanageData {
  import opened Draft
  import opened FormData

  const OrphanagesRoute := "orphanages"
  const MapScreen := "OrphanagesMap"
  const GalleryPermissionDenied := "Eita, precisamos de acesso à sua galeria..."
  const PermissionGranted := "granted"
  const ImageMimeType := "image/jpg"

  /** The scalar keys of the mobile body, in the order they are appended. */
  const ScalarKeys: seq<string> :=
    ["name", "latitude", "longitude", "about", "instructions", "opening_hours", "open_on_weekends"]

  /** What the gallery picker hands back. */
  datatype PickerResult = Cancelled | Picked(uri: string)

  /** The scalar part of the body; `fmt` stands for `String(number)`. */
  function ScalarEntries(d: ListingDraft<string>, pos: GeoPosition, fmt: real -> string): Payload {
    [ ("name", Field(d.name)),
      ("latitude", Field(fmt(pos.latitude))),
      ("longitude", Field(fmt(pos.longitude))),
      ("about", Field(d.about)),
      ("instructions", Field(d.instructions)),
      ("opening_hours", Field(d.openingHours)),
      ("open_on_weekends", Field(BoolToString(d.openOnWeekends))) ]
  }

  /** The image descriptor appended for the image at position `index`. */
  function ImageEntry(uri: string, index: nat): Entry {
    ("images", PickedImage("image_" + NatToString(index), ImageMimeType, uri))
  }

  function ImageEntries(images: seq<string>): Payload {
    seq(|images|, k requires 0 <= k < |images| => ImageEntry(images[k], k))
  }

  /** The whole body posted for a draft at a position. */
  function SubmissionPayload(d: ListingDraft<string>, pos: GeoPosition, fmt: real -> string): Payload {
    ScalarEntries(d, pos, fmt) + ImageEntries(d.images)
  }

  /** The body lists the seven scalar keys in their fixed order and then one
      `images` key per image, and nothing else. */
  lemma PayloadKeyOrder(d: ListingDraft<string>, pos: GeoPosition, fmt: real -> string)
    ensures Keys(SubmissionPayload(d, pos, fmt)) == ScalarKeys + seq(|d.images|, _ => "images")
  {
  }

  /** Reading each scalar key of the body back gives the draft's field, the
      route position's formatted coordinates, and "true" or "false" for the
      weekend flag. */
  lemma PayloadFields(d: ListingDraft<string>, pos: GeoPosition, fmt: real -> string)
    ensures Get(SubmissionPayload(d, pos, fmt), "name") == Some(Field(d.name))
    ensures Get(SubmissionPayload(d, pos, fmt), "latitude") == Some(Field(fmt(pos.latitude)))
    ensures Get(SubmissionPayload(d, pos, fmt), "longitude") == Some(Field(fmt(pos.longitude)))
    ensures Get(SubmissionPayload(d, pos, fmt), "about") == Some(Field(d.about))
    ensures Get(SubmissionPayload(d, pos, fmt), "instructions") == Some(Field(d.instructions))
    ensures Get(SubmissionPayload(d, pos, fmt), "opening_hours") == Some(Field(d.openingHours))
    ensures Get(SubmissionPayload(d, pos, fmt), "open_on_weekends")
         == Some(Field(if d.openOnWeekends then "true" else "false"))
  {
    var p := SubmissionPayload(d, pos, fmt);
    PayloadKeyOrder(d, pos, fmt);
    assert Keys(p)[..7] == ScalarKeys;
    GetFindsFirst(p, "name", 0);
    GetFindsFirst(p, "latitude", 1);
    GetFindsFirst(p, "longitude", 2);
    GetFindsFirst(p, "about", 3);
    GetFindsFirst(p, "instructions", 4);
    GetFindsFirst(p, "opening_hours", 5);
    GetFindsFirst(p, "open_on_weekends", 6);
  }

  /** The `images` parts are exactly one descriptor per image, in list order:
      part k is named image_k, typed image/jpg and carries images[k]. */
  lemma PayloadImages(d: ListingDraft<string>, pos: GeoPosition, fmt: real -> string)
    ensures |GetAll(SubmissionPayload(d, pos, fmt), "images")| == |d.images|
    ensures forall k :: 0 <= k < |d.images| ==>
      GetAll(SubmissionPayload(d, pos, fmt), "images")[k]
        == PickedImage("image_" + NatToString(k), "image/jpg", d.images[k])
  {
    var scalars := ScalarEntries(d, pos, fmt);
    var imgs := ImageEntries(d.images);
    GetAllAppend(scalars, imgs, "images");
    GetAllAbsent(scalars, "images");
    GetAllUniform(imgs, "images");
  }

  /** No two image descriptors share a name, so the server can tell the
      images apart by name. */
  lemma ImageNamesDistinct(u: string, v: string, i: nat, j: nat)
    requires i != j
    ensures ImageEntry(u, i).1.name != ImageEntry(v, j).1.name
  {
    var prefix := "image_";
    if ImageEntry(u, i).1.name == ImageEntry(v, j).1.name {
      assert (prefix + NatToString(i))[|prefix|..] == NatToString(i);
      assert (prefix + NatToString(j))[|prefix|..] == NatToString(j);
      NatToStringInjective(i, j);
      assert false;
    }
  }

  /** The data-entry screen. `position` is the route parameter; the other
      fields are the component's state. */
  class OrphanageData {
    const position: GeoPosition
    var name: string
    var about: string
    var instructions: string
    var openingHours: string
    var openOnWeekends: bool
    var images: seq<string>

    function Snapshot(): ListingDraft<string>
      reads this
    {
      ListingDraft(name, about, instructions, openingHours, openOnWeekends, images)
    }

    /** Mounting the screen: every text empty, open on weekends, no images. */
    constructor(position: GeoPosition)
      ensures this.position == position
      ensures name == "" && about == "" && instructions == "" && openingHours == ""
      ensures openOnWeekends
      ensures images == []
      ensures Snapshot() == Empty()
    {
      this.position := position;
      name, about, instructions, openingHours := "", "", "", "";
      openOnWeekends := true;
      images := [];
    }

    method SetName(text: string)
      modifies this`name
      ensures Snapshot() == Apply(old(Snapshot()), WriteText(Name, text))
    {
      name := text;
    }

    method SetAbout(text: string)
      modifies this`about
      ensures Snapshot() == Apply(old(Snapshot()), WriteText(About, text))
    {
      about := text;
    }

    method SetInstructions(text: string)
      modifies this`instructions
      ensures Snapshot() == Apply(old(Snapshot()), WriteText(Instructions, text))
    {
      instructions := text;
    }

    method SetOpeningHours(text: string)
      modifies this`openingHours
      ensures Snapshot() == Apply(old(Snapshot()), WriteText(OpeningHours, text))
    {
      openingHours := text;
    }

    /** The weekend switch. */
    method SetOpenOnWeekends(value: bool)
      modifies this`openOnWeekends
      ensures Snapshot() == Apply(old(Snapshot()), WriteOpenOnWeekends(value))
    {
      openOnWeekends := value;
    }

    /** The add-image button. `status` is what the camera-roll permission
        request resolved to and `picked` what the gallery picker returned;
        the picker is only consulted once permission is granted. */
    method HandleSelectImages(status: string, picked: PickerResult) returns (effects: seq<Effect>)
      modifies this`images
      ensures status != PermissionGranted ==>
        effects == [Alert(GalleryPermissionDenied)] && Snapshot() == old(Snapshot())
      ensures status == PermissionGranted && picked.Cancelled? ==>
        effects == [] && Snapshot() == old(Snapshot())
      ensures status == PermissionGranted && picked.Picked? ==>
        effects == [] && Snapshot() == Apply(old(Snapshot()), AddImage(picked.uri))
    {
      if status != PermissionGranted {
        effects := [Alert(GalleryPermissionDenied)];
        return;
      }
      effects := [];
      if picked.Cancelled? {
        return;
      }
      images := images + [picked.uri];
    }

    /** The `FormData` assembly at the start of the submit handler: seven
        appends for the scalars, then one per image in list order. */
    method BuildPayload(fmt: real -> string) returns (data: Payload)
      ensures data == SubmissionPayload(Snapshot(), position, fmt)
    {
      data := [];
      data := data + [("name", Field(name))];
      data := data + [("latitude", Field(fmt(position.latitude)))];
      data := data + [("longitude", Field(fmt(position.longitude)))];
      data := data + [("about", Field(about))];
      data := data + [("instructions", Field(instructions))];
      data := data + [("opening_hours", Field(openingHours))];
      data := data + [("open_on_weekends", Field(BoolToString(openOnWeekends)))];
      var index := 0;
      while index < |images|
        invariant index <= |images|
        invariant data == ScalarEntries(Snapshot(), position, fmt) + ImageEntries(images[..index])
      {
        assert ImageEntries(images[..index + 1])
            == ImageEntries(images[..index]) + [ImageEntry(images[index], index)];
        data := data + [ImageEntry(images[index], index)];
        index := index + 1;
      }
      assert images[..index] == images;
    }

    /** The submit button. `postResolves` is whether the post call resolves;
        when it rejects, the handler stops there and nothing else happens. The
        draft is left as it was either way. */
    method HandleCreateOrphanage(fmt: real -> string, postResolves: bool) returns (effects: seq<Effect>)
      ensures |effects| >= 1
      ensures effects[0] == Post(OrphanagesRoute, SubmissionPayload(Snapshot(), position, fmt))
      ensures effects[1..] == if postResolves then [Navigate(MapScreen)] else []
    {
      var data := BuildPayload(fmt);
      effects := [Post(OrphanagesRoute, data)];
      if postResolves {
        effects := effects + [Navigate(MapScreen)];
      }
    }
  }

  /** A session with a refused permission, a cancelled pick and two picks of
      the same image: both picks are kept, and the body carries both, named
      apart. */
  method SampleSession(fmt: real -> string) {
    var form := new OrphanageData(GeoPosition(-15.88, -48.12));
    form.SetName("Lar das Meninas");
    form.SetOpeningHours("08:00-18:00");
    var denied := form.HandleSelectImages("denied", Picked("img1"));
    assert form.images == [] && denied == [Alert(GalleryPermissionDenied)];
    var _ := form.HandleSelectImages(PermissionGranted, Picked("img1"));
    var _ := form.HandleSelectImages(PermissionGranted, Cancelled);
    var _ := form.HandleSelectImages(PermissionGranted, Picked("img1"));
    assert form.images == ["img1", "img1"];
    var effects := form.HandleCreateOrphanage(fmt, true);
    var body := SubmissionPayload(form.Snapshot(), form.position, fmt);
    assert effects == [Post(OrphanagesRoute, body), Navigate(MapScreen)];
    PayloadFields(form.Snapshot(), form.position, fmt);
    PayloadImages(form.Snapshot(), form.position, fmt);
    assert Get(body, "latitude") == Some(Field(fmt(-15.88)));
    assert Get(body, "open_on_weekends") == Some(Field("true"));
    assert |GetAll(body, "images")| == 2;
    ImageNamesDistinct("img1", "img1", 0, 1);
  }
}
