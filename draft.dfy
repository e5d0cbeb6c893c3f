/** The listing draft shared by both submission forms: the record the user
    fills in field by field before it is turned into a multipart payload.
    The two forms differ only in what an image is (a local URI on mobile,
    a browser File on the web), so the draft is generic in the image type. */
module Draft {

  datatype Option<T> = None | Some(value: T)

  /** A geographic point. Coordinates are JavaScript numbers; the model keeps
      them as reals and never computes with them, it only formats them. */
  datatype GeoPosition = GeoPosition(latitude: real, longitude: real)

  /** The four free-text fields of the draft. */
  datatype TextField = Name | About | Instructions | OpeningHours

  datatype ListingDraft<Img> = ListingDraft(
    name: string,
    about: string,
    instructions: string,
    openingHours: string,
    openOnWeekends: bool,
    images: seq<Img>)
  {
    function Text(f: TextField): string {
      match f
      case Name => name
      case About => about
      case Instructions => instructions
      case OpeningHours => openingHours
    }

    function WithText(f: TextField, t: string): ListingDraft<Img> {
      match f
      case Name => this.(name := t)
      case About => this.(about := t)
      case Instructions => this.(instructions := t)
      case OpeningHours => this.(openingHours := t)
    }
  }

  /** The draft a form starts from: empty texts, open on weekends, no images. */
  function Empty<Img>(): ListingDraft<Img> {
    ListingDraft("", "", "", "", true, [])
  }

  /** One user edit, as performed by one event handler of a form. */
  datatype Edit<Img> =
    | WriteText(field: TextField, text: string)
    | WriteOpenOnWeekends(value: bool)
    | AddImage(image: Img)
    | ReplaceImages(selection: seq<Img>)
  {
    predicate WritesText(f: TextField) {
      WriteText? && field == f
    }

    predicate WritesImages() {
      AddImage? || ReplaceImages?
    }
  }

  /** Reference semantics of one edit on a draft value. */
  function Apply<Img>(d: ListingDraft<Img>, e: Edit<Img>): ListingDraft<Img> {
    match e
    case WriteText(f, t) => d.WithText(f, t)
    case WriteOpenOnWeekends(b) => d.(openOnWeekends := b)
    case AddImage(x) => d.(images := d.images + [x])
    case ReplaceImages(s) => d.(images := s)
  }

  /** The draft after a sequence of edits, applied in order. */
  function ApplyAll<Img>(d: ListingDraft<Img>, es: seq<Edit<Img>>): ListingDraft<Img>
    decreases |es|
  {
    if es == [] then d else Apply(ApplyAll(d, es[..|es| - 1]), es[|es| - 1])
  }

  /** The images appended by the AddImage edits of a sequence, in order. */
  function AddedImages<Img>(es: seq<Edit<Img>>): seq<Img>
    decreases |es|
  {
    if es == [] then []
    else
      var last := es[|es| - 1];
      AddedImages(es[..|es| - 1]) + (if last.AddImage? then [last.image] else [])
  }

  /** A text edit replaces exactly its own field: every other text field, the
      weekend flag and the image list are left as they were. */
  lemma WriteTextIsLocal<Img>(d: ListingDraft<Img>, f: TextField, t: string)
    ensures Apply(d, WriteText(f, t)).Text(f) == t
    ensures forall g: TextField :: g != f ==> Apply(d, WriteText(f, t)).Text(g) == d.Text(g)
    ensures Apply(d, WriteText(f, t)).openOnWeekends == d.openOnWeekends
    ensures Apply(d, WriteText(f, t)).images == d.images
  {
  }

  /** Edits that write different parts of the draft commute. */
  lemma IndependentEditsCommute<Img>(d: ListingDraft<Img>, e1: Edit<Img>, e2: Edit<Img>)
    requires e1.WriteText? && e2.WriteText? ==> e1.field != e2.field
    requires !(e1.WritesImages() && e2.WritesImages())
    requires !(e1.WriteOpenOnWeekends? && e2.WriteOpenOnWeekends?)
    ensures Apply(Apply(d, e1), e2) == Apply(Apply(d, e2), e1)
  {
  }

  /** Last write wins: a text field holds the value of the last edit that
      wrote it, whatever other edits come after. */
  lemma {:induction false} LastTextWriteWins<Img>(d: ListingDraft<Img>, es: seq<Edit<Img>>, i: nat, f: TextField)
    requires i < |es| && es[i].WritesText(f)
    requires forall j :: i < j < |es| ==> !es[j].WritesText(f)
    ensures ApplyAll(d, es).Text(f) == es[i].text
    decreases |es|
  {
    var prefix := es[..|es| - 1];
    if i < |es| - 1 {
      assert forall j :: i < j < |prefix| ==> prefix[j] == es[j];
      LastTextWriteWins(d, prefix, i, f);
    }
  }

  /** A text field that no edit writes keeps its initial value. */
  lemma {:induction false} UnwrittenTextKept<Img>(d: ListingDraft<Img>, es: seq<Edit<Img>>, f: TextField)
    requires forall j :: 0 <= j < |es| ==> !es[j].WritesText(f)
    ensures ApplyAll(d, es).Text(f) == d.Text(f)
    decreases |es|
  {
    if es != [] {
      var prefix := es[..|es| - 1];
      assert forall j :: 0 <= j < |prefix| ==> prefix[j] == es[j];
      UnwrittenTextKept(d, prefix, f);
    }
  }

  /** Without a wholesale replacement, the image list is the initial list
      followed by every added image in the order the edits added them;
      duplicates are kept. */
  lemma {:induction false} AddsConcatenate<Img>(d: ListingDraft<Img>, es: seq<Edit<Img>>)
    requires forall j :: 0 <= j < |es| ==> !es[j].ReplaceImages?
    ensures ApplyAll(d, es).images == d.images + AddedImages(es)
    decreases |es|
  {
    if es != [] {
      var prefix := es[..|es| - 1];
      assert forall j :: 0 <= j < |prefix| ==> prefix[j] == es[j];
      AddsConcatenate(d, prefix);
    }
  }

  /** A wholesale replacement forgets every earlier image: if no image edit
      follows it, the image list is exactly the replacing selection. */
  lemma {:induction false} LastSelectionWins<Img>(d: ListingDraft<Img>, es: seq<Edit<Img>>, i: nat)
    requires i < |es| && es[i].ReplaceImages?
    requires forall j :: i < j < |es| ==> !es[j].WritesImages()
    ensures ApplyAll(d, es).images == es[i].selection
    decreases |es|
  {
    var prefix := es[..|es| - 1];
    if i < |es| - 1 {
      assert forall j :: i < j < |prefix| ==> prefix[j] == es[j];
      LastSelectionWins(d, prefix, i);
    }
  }
}
