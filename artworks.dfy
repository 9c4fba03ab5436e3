/** The artwork catalog: listings, the upload form's sale-type branch,
    saving AI concept art, and the artist-only views
    (artworks/models.py, artworks/views.py). */
module Artworks {
  import opened Common
  import Accounts

  /** The two choices of `Artwork.sale_type`. */
  const AUCTION: string := "auction"
  const FIXED: string := "fixed"

  /** Default of `Artwork.source_model`, and the value concept art stores. */
  const DEFAULT_SOURCE_MODEL: string := "Stable Diffusion API"
  const STABILITY_SOURCE_MODEL: string := "Stability AI"

  const TITLE_REQUIRED: string := "Please provide a title"
  const NO_IMAGE: string := "No image to save. Please generate an image first."
  const DECODE_ERROR_PREFIX: string := "Error processing image: "
  const PREVIEW_URL_PREFIX: string := "data:image/png;base64,"

  /** An `Artwork` row. `image` is the stored file name ("" when none);
      `saleType` is whatever the creating view stored. */
  datatype Artwork = Artwork(
    id: ArtworkId,
    artist: UserId,
    title: string,
    description: string,
    image: string,
    saleType: string,
    startingPrice: Option<Cents>,
    fixedPrice: Option<Cents>,
    isSold: bool,
    isAiGenerated: bool,
    prompt: string,
    sourceModel: string)

  /** A row created with only the given columns: every other column takes
      its declared default (both prices null, not sold, not AI-generated,
      empty prompt, the default source model). */
  function NewArtwork(id: ArtworkId, artist: UserId, title: string, description: string,
                      image: string, saleType: string): Artwork
  {
    Artwork(id, artist, title, description, image, saleType, None, None,
            false, false, "", DEFAULT_SOURCE_MODEL)
  }

  /** What `upload_artwork` reads from the POST data and files. */
  datatype UploadForm = UploadForm(
    title: Option<string>,
    description: Option<string>,
    saleType: Option<string>,
    image: Option<string>,
    fixedPrice: Option<Cents>,
    startingPrice: Option<Cents>)

  /** The row `upload_artwork` creates: the sale type defaults to `fixed`;
      a `fixed` artwork gets a fixed price (0 when none was posted) and no
      starting price, any other sale type gets a starting price and no
      fixed price. */
  function UploadedArtwork(id: ArtworkId, artist: UserId, form: UploadForm): (a: Artwork)
    ensures a.id == id && a.artist == artist
    ensures a.title == form.title.GetOr("") && a.description == form.description.GetOr("")
    ensures a.image == form.image.GetOr("")
    ensures a.saleType == form.saleType.GetOr(FIXED)
    ensures a.saleType == FIXED ==> a.fixedPrice == Some(form.fixedPrice.GetOr(0)) && a.startingPrice == None
    ensures a.saleType != FIXED ==> a.startingPrice == Some(form.startingPrice.GetOr(0)) && a.fixedPrice == None
    ensures !a.isSold && !a.isAiGenerated && a.prompt == "" && a.sourceModel == DEFAULT_SOURCE_MODEL
  {
    var saleType := form.saleType.GetOr(FIXED);
    var base := NewArtwork(id, artist, form.title.GetOr(""), form.description.GetOr(""),
                           form.image.GetOr(""), saleType);
    if saleType == FIXED then base.(fixedPrice := Some(form.fixedPrice.GetOr(0)))
    else base.(startingPrice := Some(form.startingPrice.GetOr(0)))
  }

  /** The concept-art preview held in the session by the AI studio. */
  datatype Session = Session(
    previewPrompt: Option<string>,
    previewImageBase64: Option<string>)

  /** The outcome of base64-decoding the preview image. */
  datatype DecodeResult = Decoded | DecodeFailed(reason: string)

  /** The name under which a saved concept image is stored. */
  function ConceptFilename(pk: ArtworkId): (name: string)
    ensures |name| == 17 + |NatToString(pk)|
    ensures name[..13] == "ai_generated_" && name[|name| - 4..] == ".png"
    ensures name[13..|name| - 4] == NatToString(pk)
  {
    "ai_generated_" + NatToString(pk) + ".png"
  }

  /** Different artworks never share a concept image file name. */
  lemma ConceptFilenamesDistinct(a: ArtworkId, b: ArtworkId)
    requires a != b
    ensures ConceptFilename(a) != ConceptFilename(b)
  {
    NatToStringInjective(a, b);
  }

  /** The `data:` URL of the preview, or "" when there is no image. */
  function PreviewImageUrl(b64: string): string {
    if b64 == "" then "" else PREVIEW_URL_PREFIX + b64
  }

  /** The row `save_concept_art` creates. */
  function ConceptArtwork(pk: ArtworkId, artist: UserId, title: string, description: string,
                          prompt: string): (a: Artwork)
    ensures a.id == pk && a.artist == artist && a.title == title && a.description == description
    ensures a.isAiGenerated && a.prompt == prompt && a.sourceModel == STABILITY_SOURCE_MODEL
    ensures a.image == ConceptFilename(pk)
    ensures !a.isSold && a.startingPrice == None && a.fixedPrice == None
  {
    NewArtwork(pk, artist, title, description, ConceptFilename(pk), "").(
      isAiGenerated := true, prompt := prompt, sourceModel := STABILITY_SOURCE_MODEL)
  }

  /** The responses of the artwork views. */
  datatype Response =
    | RedirectHome
    | RedirectArtworkDetail(pk: ArtworkId)
    | RedirectCreateAuction(artworkId: ArtworkId)
    | RedirectArtistDashboard
    | UploadPage
    | AddArtworkPage
    | ConceptArtPage(error: string, previewPrompt: string, previewImageUrl: string)
    | Dashboard(artworks: seq<Artwork>, hasArtworks: bool)

  /** The checks `save_concept_art` makes on a POST, in order: a title,
      then an image in the session, then a successful decode. `None`
      means every check passed and the artwork is created. */
  function ConceptArtRejection(title: Option<string>, session: Session, decode: DecodeResult)
    : (page: Option<Response>)
    ensures page.None? <==>
      title.GetOr("") != "" && session.previewImageBase64.GetOr("") != "" && decode == Decoded
    ensures title.GetOr("") == "" ==>
      page == Some(ConceptArtPage(TITLE_REQUIRED, session.previewPrompt.GetOr(""),
                                  PreviewImageUrl(session.previewImageBase64.GetOr(""))))
    ensures title.GetOr("") != "" && session.previewImageBase64.GetOr("") == "" ==>
      page == Some(ConceptArtPage(NO_IMAGE, "", ""))
    ensures title.GetOr("") != "" && session.previewImageBase64.GetOr("") != "" && decode.DecodeFailed? ==>
      page == Some(ConceptArtPage(DECODE_ERROR_PREFIX + decode.reason, "", ""))
  {
    var b64 := session.previewImageBase64.GetOr("");
    if title.GetOr("") == "" then
      Some(ConceptArtPage(TITLE_REQUIRED, session.previewPrompt.GetOr(""), PreviewImageUrl(b64)))
    else if b64 != "" then
      match decode
      case Decoded => None
      case DecodeFailed(reason) => Some(ConceptArtPage(DECODE_ERROR_PREFIX + reason, "", ""))
    else
      Some(ConceptArtPage(NO_IMAGE, "", ""))
  }

  /** The title is checked before anything else: without one, neither the
      session's image nor the decoder can change the answer. */
  lemma TitleCheckedFirst(session1: Session, session2: Session, d1: DecodeResult, d2: DecodeResult)
    requires session1.previewPrompt == session2.previewPrompt
    requires PreviewImageUrl(session1.previewImageBase64.GetOr("")) == PreviewImageUrl(session2.previewImageBase64.GetOr(""))
    ensures ConceptArtRejection(None, session1, d1) == ConceptArtRejection(None, session2, d2)
    ensures ConceptArtRejection(Some(""), session1, d1) == ConceptArtRejection(None, session2, d2)
  {
  }

  /** The decoder is only consulted when there is an image: with a title
      and no image the answer is the "No image to save" page, whatever the
      decoder would say. */
  lemma DecodeOnlyWithImage(title: string, session: Session, d1: DecodeResult, d2: DecodeResult)
    requires title != "" && session.previewImageBase64.GetOr("") == ""
    ensures ConceptArtRejection(Some(title), session, d1) == ConceptArtRejection(Some(title), session, d2)
            == Some(ConceptArtPage(NO_IMAGE, "", ""))
  {
  }

  /** The artwork form of `add_artwork` after `is_valid()` and
      `save(commit=False)`. */
  datatype ArtworkDraft = ArtworkDraft(title: string, description: string, image: string, saleType: string)

  /** The artworks of `artist`, in table order. */
  function ArtworksBy(artworks: seq<Artwork>, artist: UserId): (mine: seq<Artwork>)
    ensures |mine| <= |artworks|
    ensures forall i :: 0 <= i < |mine| ==> mine[i].artist == artist
  {
    Filter(artworks, (a: Artwork) => a.artist == artist)
  }

  /** Exactly the artist's artworks are selected. */
  lemma ArtworksByMembers(artworks: seq<Artwork>, artist: UserId, x: Artwork)
    ensures x in ArtworksBy(artworks, artist) <==> x in artworks && x.artist == artist
  {
    FilterMembers(artworks, (a: Artwork) => a.artist == artist, x);
  }

  /** Selecting keeps the table order: ids that increase along the table
      increase along the selection. */
  lemma ArtworksByKeepsOrder(artworks: seq<Artwork>, artist: UserId)
    requires forall i, j :: 0 <= i < j < |artworks| ==> artworks[i].id < artworks[j].id
    ensures forall i, j :: 0 <= i < j < |ArtworksBy(artworks, artist)| ==>
      ArtworksBy(artworks, artist)[i].id < ArtworksBy(artworks, artist)[j].id
  {
    FilterKeepsIncreasing(artworks, (a: Artwork) => a.artist == artist, (a: Artwork) => a.id);
  }

  /** The artwork table. Rows are never deleted, so the row at index `i`
      has primary key `i + 1`. */
  class Catalog {
    var artworks: seq<Artwork>

    ghost predicate Valid()
      reads this
    {
      forall i :: 0 <= i < |artworks| ==> artworks[i].id == i + 1
    }

    constructor ()
      ensures Valid() && artworks == []
    {
      artworks := [];
    }

    /** Artworks listed newest first (`ordering = ['-created_at']`): the
        same rows, primary keys strictly decreasing. */
    function Listing(): (r: seq<Artwork>)
      requires Valid()
      reads this
      ensures |r| == |artworks|
      ensures forall a :: a in r <==> a in artworks
      ensures forall i, j :: 0 <= i < j < |r| ==> r[i].id > r[j].id
    {
      var r := NewestFirst(artworks);
      assert forall a :: a in artworks ==> a in r by {
        forall a | a in artworks ensures a in r {
          var k :| 0 <= k < |artworks| && artworks[k] == a;
          assert r[|artworks| - 1 - k] == a;
        }
      }
      r
    }

    /** `upload_artwork`: any signed-in user may upload; the created row
        is `UploadedArtwork` with the next primary key. */
    method UploadArtwork(user: Accounts.User, isPost: bool, form: UploadForm) returns (r: Response)
      requires Valid()
      modifies this
      ensures Valid()
      ensures !isPost ==> r == UploadPage && artworks == old(artworks)
      ensures isPost ==>
        && artworks == old(artworks) + [UploadedArtwork(|old(artworks)| + 1, user.id, form)]
        && r == RedirectArtworkDetail(|old(artworks)| + 1)
    {
      if !isPost {
        return UploadPage;
      }
      var pk := |artworks| + 1;
      artworks := artworks + [UploadedArtwork(pk, user.id, form)];
      r := RedirectArtworkDetail(pk);
    }

    /** `save_concept_art`: a GET shows the preview; a POST that passes the
        three checks creates exactly one AI-generated artwork, any other
        POST creates nothing and shows the error. */
    method SaveConceptArt(user: Accounts.User, isPost: bool, title: Option<string>, description: Option<string>,
                          session: Session, decode: DecodeResult) returns (r: Response)
      requires Valid()
      modifies this
      ensures Valid()
      ensures !isPost ==>
        && artworks == old(artworks)
        && r == ConceptArtPage("", session.previewPrompt.GetOr(""),
                               PreviewImageUrl(session.previewImageBase64.GetOr("")))
      ensures isPost && ConceptArtRejection(title, session, decode).Some? ==>
        artworks == old(artworks) && r == ConceptArtRejection(title, session, decode).value
      ensures isPost && ConceptArtRejection(title, session, decode).None? ==>
        && artworks == old(artworks) + [ConceptArtwork(|old(artworks)| + 1, user.id, title.GetOr(""),
                                                       description.GetOr(""), session.previewPrompt.GetOr(""))]
        && r == RedirectArtworkDetail(|old(artworks)| + 1)
    {
      if !isPost {
        return ConceptArtPage("", session.previewPrompt.GetOr(""),
                              PreviewImageUrl(session.previewImageBase64.GetOr("")));
      }
      var rejection := ConceptArtRejection(title, session, decode);
      if rejection.Some? {
        return rejection.value;
      }
      var pk := |artworks| + 1;
      artworks := artworks + [ConceptArtwork(pk, user.id, title.GetOr(""), description.GetOr(""),
                                             session.previewPrompt.GetOr(""))];
      r := RedirectArtworkDetail(pk);
    }

    /** `add_artwork`: non-artists are sent home and nothing is created; a
        valid posted form creates one artwork by this artist, then auction
        artworks go on to auction creation and all others to the
        dashboard. */
    method AddArtwork(user: Accounts.User, isPost: bool, form: Option<ArtworkDraft>) returns (r: Response)
      requires Valid()
      modifies this
      ensures Valid()
      ensures !Accounts.IsArtist(user) ==> r == RedirectHome && artworks == old(artworks)
      ensures Accounts.IsArtist(user) && !(isPost && form.Some?) ==> r == AddArtworkPage && artworks == old(artworks)
      ensures Accounts.IsArtist(user) && isPost && form.Some? ==>
        && var pk := |old(artworks)| + 1;
        && var d := form.value;
        && artworks == old(artworks) + [NewArtwork(pk, user.id, d.title, d.description, d.image, d.saleType)]
        && r == (if d.saleType == AUCTION then RedirectCreateAuction(pk) else RedirectArtistDashboard)
    {
      if !Accounts.IsArtist(user) {
        return RedirectHome;
      }
      if !(isPost && form.Some?) {
        return AddArtworkPage;
      }
      var d := form.value;
      var pk := |artworks| + 1;
      artworks := artworks + [NewArtwork(pk, user.id, d.title, d.description, d.image, d.saleType)];
      if d.saleType == AUCTION {
        r := RedirectCreateAuction(pk);
      } else {
        r := RedirectArtistDashboard;
      }
    }

    /** `artist_dashboard`: non-artists are sent home; an artist sees
        exactly their own artworks, newest first (`ordering =
        ['-created_at']`), and whether there are any. */
    function ArtistDashboard(user: Accounts.User): (r: Response)
      requires Valid()
      reads this
      ensures !Accounts.IsArtist(user) ==> r == RedirectHome
      ensures Accounts.IsArtist(user) ==> r.Dashboard? && r.hasArtworks == (r.artworks != [])
      ensures Accounts.IsArtist(user) ==> forall a :: a in r.artworks <==> a in artworks && a.artist == user.id
      ensures Accounts.IsArtist(user) ==> forall i, j :: 0 <= i < j < |r.artworks| ==> r.artworks[i].id > r.artworks[j].id
    {
      if !Accounts.IsArtist(user) then RedirectHome
      else
        var selected := ArtworksBy(artworks, user.id);
        ArtworksByKeepsOrder(artworks, user.id);
        var mine := NewestFirst(selected);
        assert forall a :: a in mine <==> a in selected by {
          forall a ensures a in mine <==> a in selected {
            if a in selected {
              var k :| 0 <= k < |selected| && selected[k] == a;
              assert mine[|selected| - 1 - k] == a;
            }
          }
        }
        assert forall a :: a in mine <==> a in artworks && a.artist == user.id by {
          forall a ensures a in mine <==> a in artworks && a.artist == user.id {
            ArtworksByMembers(artworks, user.id, a);
          }
        }
        Dashboard(mine, mine != [])
    }
  }
}
