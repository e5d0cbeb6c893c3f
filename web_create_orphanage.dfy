/** The web listing form: one page that holds the position picked on its map,
    the draft, the selected files with their previews, and posts all of it as
    a multipart body. */
module WebCreateOrphanage {
  import opened Draft
  import opened FormData

  const OrphanagesRoute := "orphanages"
  const SuccessMessage := "Cadastro realizado com sucesso!"
  const AppPath := "/app"

  /** The `maxLength` of the about textarea; the browser refuses longer input. */
  const AboutMaxLength := 300

  /** What the form posts when the map was never clicked. */
  const Origin := GeoPosition(0.0, 0.0)

  /** The scalar keys of the web body, in the order they are appended. */
  const ScalarKeys: seq<string> :=
    ["name", "about", "latitude", "longitude", "instructions", "opening_hours", "open_on_weekends"]

  /** The position the form submits: the clicked one, or the origin. */
  function SubmittedPosition(position: Option<GeoPosition>): GeoPosition {
    if position.Some? then position.value else Origin
  }

  /** The scalar part of the body; `fmt` stands for `String(number)`. */
  function ScalarEntries(d: ListingDraft<BrowserFile>, pos: GeoPosition, fmt: real -> string): Payload {
    [ ("name", Field(d.name)),
      ("about", Field(d.about)),
      ("latitude", Field(fmt(pos.latitude))),
      ("longitude", Field(fmt(pos.longitude))),
      ("instructions", Field(d.instructions)),
      ("opening_hours", Field(d.openingHours)),
      ("open_on_weekends", Field(BoolToString(d.openOnWeekends))) ]
  }

  function FileEntries(files: seq<BrowserFile>): Payload {
    seq(|files|, k requires 0 <= k < |files| => ("images", File(files[k])))
  }

  /** The whole body posted for a draft and the page's position state. */
  function SubmissionPayload(d: ListingDraft<BrowserFile>, position: Option<GeoPosition>, fmt: real -> string): Payload {
    ScalarEntries(d, SubmittedPosition(position), fmt) + FileEntries(d.images)
  }

  /** The preview URLs of a selection, one per file in the same order;
      `objectUrl` stands for `URL.createObjectURL`. */
  function Previews(files: seq<BrowserFile>, objectUrl: BrowserFile -> string): (urls: seq<string>)
    ensures |urls| == |files|
    ensures forall i :: 0 <= i < |files| ==> urls[i] == objectUrl(files[i])
    decreases |files|
  {
    if files == [] then [] else [objectUrl(files[0])] + Previews(files[1..], objectUrl)
  }

  /** The body lists the seven scalar keys in the web order and then one
      `images` key per selected file, and nothing else. */
  lemma PayloadKeyOrder(d: ListingDraft<BrowserFile>, position: Option<GeoPosition>, fmt: real -> string)
    ensures Keys(SubmissionPayload(d, position, fmt)) == ScalarKeys + seq(|d.images|, _ => "images")
  {
  }

  /** Reading each scalar key back gives the draft's field, "true" or "false"
      for the weekend flag, and the clicked position's coordinates, or 0 for
      both when the map was never clicked. */
  lemma PayloadFields(d: ListingDraft<BrowserFile>, position: Option<GeoPosition>, fmt: real -> string)
    ensures Get(SubmissionPayload(d, position, fmt), "name") == Some(Field(d.name))
    ensures Get(SubmissionPayload(d, position, fmt), "about") == Some(Field(d.about))
    ensures Get(SubmissionPayload(d, position, fmt), "latitude")
         == Some(Field(fmt(if position.Some? then position.value.latitude else 0.0)))
    ensures Get(SubmissionPayload(d, position, fmt), "longitude")
         == Some(Field(fmt(if position.Some? then position.value.longitude else 0.0)))
    ensures Get(SubmissionPayload(d, position, fmt), "instructions") == Some(Field(d.instructions))
    ensures Get(SubmissionPayload(d, position, fmt), "opening_hours") == Some(Field(d.openingHours))
    ensures Get(SubmissionPayload(d, position, fmt), "open_on_weekends")
         == Some(Field(if d.openOnWeekends then "true" else "false"))
  {
    var p := SubmissionPayload(d, position, fmt);
    PayloadKeyOrder(d, position, fmt);
    assert Keys(p)[..7] == ScalarKeys;
    GetFindsFirst(p, "name", 0);
    GetFindsFirst(p, "about", 1);
    GetFindsFirst(p, "latitude", 2);
    GetFindsFirst(p, "longitude", 3);
    GetFindsFirst(p, "instructions", 4);
    GetFindsFirst(p, "opening_hours", 5);
    GetFindsFirst(p, "open_on_weekends", 6);
  }

  /** The `images` parts are exactly the selected files, in selection order. */
  lemma PayloadImages(d: ListingDraft<BrowserFile>, position: Option<GeoPosition>, fmt: real -> string)
    ensures GetAll(SubmissionPayload(d, position, fmt), "images")
         == seq(|d.images|, k requires 0 <= k < |d.images| => File(d.images[k]))
  {
    var scalars := ScalarEntries(d, SubmittedPosition(position), fmt);
    var files := FileEntries(d.images);
    GetAllAppend(scalars, files, "images");
    GetAllAbsent(scalars, "images");
    GetAllUniform(files, "images");
  }

  /** A submission without a map click cannot be told apart from one at
      latitude 0, longitude 0. */
  lemma MissingPositionPostsOrigin(d: ListingDraft<BrowserFile>, fmt: real -> string)
    ensures SubmissionPayload(d, None, fmt) == SubmissionPayload(d, Some(GeoPosition(0.0, 0.0)), fmt)
  {
  }

  /** The page's state. */
  class CreateOrphanage {
    var position: Option<GeoPosition>
    var name: string
    var about: string
    var instructions: string
    var openingHours: string
    var openOnWeekends: bool
    var images: seq<BrowserFile>
    var imagesPreview: seq<string>

    /** One preview per selected file, and the about text within its cap. */
    ghost predicate Valid()
      reads this
    {
      |imagesPreview| == |images| && |about| <= AboutMaxLength
    }

    function Snapshot(): ListingDraft<BrowserFile>
      reads this
    {
      ListingDraft(name, about, instructions, openingHours, openOnWeekends, images)
    }

    /** Mounting the page: no position, every text empty, open on weekends,
        no files and no previews. */
    constructor()
      ensures Valid()
      ensures position == None
      ensures name == "" && about == "" && instructions == "" && openingHours == ""
      ensures openOnWeekends
      ensures images == [] && imagesPreview == []
      ensures Snapshot() == Empty()
    {
      position := None;
      name, about, instructions, openingHours := "", "", "", "";
      openOnWeekends := true;
      images, imagesPreview := [], [];
    }

    /** A click on the map; `lat` and `lng` are the clicked point. */
    method HandleMapClick(lat: real, lng: real)
      requires Valid()
      modifies this`position
      ensures Valid()
      ensures position == Some(GeoPosition(lat, lng))
      ensures Snapshot() == old(Snapshot()) && imagesPreview == old(imagesPreview)
    {
      position := Some(GeoPosition(lat, lng));
    }

    method SetName(text: string)
      requires Valid()
      modifies this`name
      ensures Valid()
      ensures Snapshot() == Apply(old(Snapshot()), WriteText(Name, text))
    {
      name := text;
    }

    method SetAbout(text: string)
      requires Valid()
      requires |text| <= AboutMaxLength
      modifies this`about
      ensures Valid()
      ensures Snapshot() == Apply(old(Snapshot()), WriteText(About, text))
    {
      about := text;
    }

    method SetInstructions(text: string)
      requires Valid()
      modifies this`instructions
      ensures Valid()
      ensures Snapshot() == Apply(old(Snapshot()), WriteText(Instructions, text))
    {
      instructions := text;
    }

    method SetOpeningHours(text: string)
      requires Valid()
      modifies this`openingHours
      ensures Valid()
      ensures Snapshot() == Apply(old(Snapshot()), WriteText(OpeningHours, text))
    {
      openingHours := text;
    }

    /** The "Sim" button. */
    method ChooseOpenOnWeekends()
      requires Valid()
      modifies this`openOnWeekends
      ensures Valid()
      ensures Snapshot() == Apply(old(Snapshot()), WriteOpenOnWeekends(true))
    {
      openOnWeekends := true;
    }

    /** The "Não" button. */
    method ChooseClosedOnWeekends()
      requires Valid()
      modifies this`openOnWeekends
      ensures Valid()
      ensures Snapshot() == Apply(old(Snapshot()), WriteOpenOnWeekends(false))
    {
      openOnWeekends := false;
    }

    /** The file input's change handler. `files` is the input's file list,
        `None` when it is null. A selection replaces the earlier one. */
    method HandleSelectImages(files: Option<seq<BrowserFile>>, objectUrl: BrowserFile -> string)
      requires Valid()
      modifies this`images, this`imagesPreview
      ensures Valid()
      ensures files.None? ==> images == old(images) && imagesPreview == old(imagesPreview)
      ensures files.Some? ==> Snapshot() == Apply(old(Snapshot()), ReplaceImages(files.value))
      ensures files.Some? ==> imagesPreview == Previews(files.value, objectUrl)
    {
      if files.None? {
        return;
      }
      var selected := files.value;
      images := selected;
      imagesPreview := Previews(selected, objectUrl);
    }

    /** The `FormData` assembly of the submit handler: seven appends for the
        scalars, then one per selected file in order. */
    method BuildPayload(fmt: real -> string) returns (data: Payload)
      ensures data == SubmissionPayload(Snapshot(), position, fmt)
    {
      var pos := if position.Some? then position.value else GeoPosition(0.0, 0.0);
      data := [];
      data := data + [("name", Field(name))];
      data := data + [("about", Field(about))];
      data := data + [("latitude", Field(fmt(pos.latitude)))];
      data := data + [("longitude", Field(fmt(pos.longitude)))];
      data := data + [("instructions", Field(instructions))];
      data := data + [("opening_hours", Field(openingHours))];
      data := data + [("open_on_weekends", Field(BoolToString(openOnWeekends)))];
      var index := 0;
      while index < |images|
        invariant index <= |images|
        invariant data == ScalarEntries(Snapshot(), pos, fmt) + FileEntries(images[..index])
      {
        assert FileEntries(images[..index + 1])
            == FileEntries(images[..index]) + [("images", File(images[index]))];
        data := data + [("images", File(images[index]))];
        index := index + 1;
      }
      assert images[..index] == images;
    }

    /** The form's submit handler. `postResolves` is whether the post call
        resolves; when it rejects, the handler stops there, with neither the
        alert nor the redirect. */
    method HandleSubmit(fmt: real -> string, postResolves: bool) returns (effects: seq<Effect>)
      ensures |effects| >= 1
      ensures effects[0] == Post(OrphanagesRoute, SubmissionPayload(Snapshot(), position, fmt))
      ensures effects[1..] == if postResolves then [Alert(SuccessMessage), PushHistory(AppPath)] else []
    {
      var data := BuildPayload(fmt);
      effects := [Post(OrphanagesRoute, data)];
      if postResolves {
        effects := effects + [Alert(SuccessMessage)];
        effects := effects + [PushHistory(AppPath)];
      }
    }
  }

  /** Submitting a fresh page: the body carries the origin, and a rejected
      post is the only effect. */
  method SampleUnclickedSubmit(fmt: real -> string) {
    var page := new CreateOrphanage();
    var effects := page.HandleSubmit(fmt, false);
    var body := SubmissionPayload(Empty(), None, fmt);
    assert effects == [Post(OrphanagesRoute, body)];
    PayloadFields(Empty(), None, fmt);
    assert Get(body, "latitude") == Some(Field(fmt(0.0)));
  }

  /** A session on the page: the last click and the last selection win, a
      null file list changes nothing, and the body follows them. */
  method SampleSession(fmt: real -> string, objectUrl: BrowserFile -> string) {
    var page := new CreateOrphanage();
    page.HandleMapClick(-15.88, -48.12);
    page.HandleMapClick(-15.90, -48.10);
    assert page.position == Some(GeoPosition(-15.90, -48.10));
    page.HandleSelectImages(Some([BrowserFile(1), BrowserFile(2)]), objectUrl);
    page.HandleSelectImages(Some([BrowserFile(3)]), objectUrl);
    page.HandleSelectImages(None, objectUrl);
    assert page.images == [BrowserFile(3)] && |page.imagesPreview| == 1;
    page.ChooseClosedOnWeekends();
    var effects := page.HandleSubmit(fmt, true);
    assert |effects| == 3 && effects[2] == PushHistory(AppPath);
    PayloadFields(page.Snapshot(), page.position, fmt);
    PayloadImages(page.Snapshot(), page.position, fmt);
    var body := SubmissionPayload(page.Snapshot(), page.position, fmt);
    assert Get(body, "latitude") == Some(Field(fmt(-15.90)));
    assert Get(body, "open_on_weekends") == Some(Field("false"));
    assert |GetAll(body, "images")| == 1 && GetAll(body, "images")[0] == File(BrowserFile(3));
  }
}
