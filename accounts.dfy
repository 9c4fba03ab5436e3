/** Users, their role, registration and artist ratings
    (accounts/models.py, accounts/views.py). */
module Accounts {
  import opened Common

  /** The two choices of `CustomUser.user_type`. */
  const BUYER: string := "buyer"
  const ARTIST: string := "artist"

  /** The character `ProhibitNullCharactersValidator` refuses. */
  const NUL: char := '\0'

  const USERNAME_TAKEN: string := "Username already registered."

  /** A registered user. `userType` holds whatever registration stored:
      the model lists two choices, but `create_user` does not check them. */
  datatype User = User(id: UserId, username: string, userType: string, isStaff: bool)

  /** The role gate used by the artist-only views. */
  predicate IsArtist(u: User) {
    u.userType == ARTIST
  }

  /** Star ratings: an IntegerField whose choices are 1..5. */
  type Stars = r: int | 1 <= r <= 5 witness 1

  /** An `ArtistRating` row: one artist, one rater, 1..5 stars. No
      uniqueness per (artist, rater) is declared. The column is nullable,
      but the only view that stores ratings always stores text. */
  datatype ArtistRating = ArtistRating(artist: UserId, rater: UserId, rating: Stars, review: string)

  /** What the rating form posts; `rating` is absent or any integer, the
      review absent or any text. */
  datatype RatingForm = RatingForm(rating: Option<int>, review: Option<string>)

  /** The review as the form cleans it: the optional text field strips
      surrounding whitespace and gives "" when nothing was posted. */
  function CleanReview(review: Option<string>): (text: string)
    ensures review.None? ==> text == ""
    ensures review.Some? ==> text == Strip(review.value)
  {
    Strip(review.GetOr(""))
  }

  /** `ArtistRatingForm.is_valid()` followed by `save(commit=False)`: the
      rating must be one of the five choices, and the review is stored as
      cleaned; a cleaned review holding the null character is refused by
      the text field's validator. */
  function CleanRating(f: RatingForm, artist: UserId, rater: UserId): (r: Option<ArtistRating>)
    ensures r.Some? <==> f.rating.Some? && 1 <= f.rating.value <= 5 && NUL !in CleanReview(f.review)
    ensures r.Some? ==> r.value.rating == f.rating.value && r.value.review == CleanReview(f.review)
    ensures r.Some? ==> r.value.artist == artist && r.value.rater == rater
  {
    match f.rating
    case Some(v) =>
      if 1 <= v <= 5 && NUL !in CleanReview(f.review) then Some(ArtistRating(artist, rater, v, CleanReview(f.review)))
      else None
    case None => None
  }

  /** A posted review holding the null character anywhere is refused,
      whatever the rating. */
  lemma NullReviewRefused(f: RatingForm, artist: UserId, rater: UserId, k: nat)
    requires f.review.Some? && k < |f.review.value| && f.review.value[k] == NUL
    ensures CleanRating(f, artist, rater) == None
  {
    StripKeepsNonSpace(f.review.value, k);
  }

  /** A stored review never begins or ends with whitespace, and cleaning
      it again changes nothing; a review of blanks is stored as "". */
  lemma StoredReviewIsClean(f: RatingForm, artist: UserId, rater: UserId)
    requires CleanRating(f, artist, rater).Some?
    ensures var text := CleanRating(f, artist, rater).value.review;
      && (text == [] || (!IsSpace(text[0]) && !IsSpace(text[|text| - 1])))
      && CleanReview(Some(text)) == text
    ensures f.review.Some? && (forall k :: 0 <= k < |f.review.value| ==> IsSpace(f.review.value[k])) ==>
      CleanRating(f, artist, rater).value.review == ""
  {
    var raw := f.review.GetOr("");
    var text := Strip(raw);
    assert CleanRating(f, artist, rater).value.review == text;
    StripIdempotent(raw);
    assert CleanReview(Some(text)) == Strip(text);
    if f.review.Some? && (forall k :: 0 <= k < |f.review.value| ==> IsSpace(f.review.value[k])) {
      StripBlank(raw);
    }
  }

  /** The ratings received by `artist`, in table order. */
  function RatingsOf(ratings: seq<ArtistRating>, artist: UserId): (mine: seq<ArtistRating>)
    ensures |mine| <= |ratings|
    ensures forall i :: 0 <= i < |mine| ==> mine[i].artist == artist
  {
    Filter(ratings, (x: ArtistRating) => x.artist == artist)
  }

  /** Exactly the artist's ratings are selected. */
  lemma RatingsOfMembers(ratings: seq<ArtistRating>, artist: UserId, x: ArtistRating)
    ensures x in RatingsOf(ratings, artist) <==> x in ratings && x.artist == artist
  {
    FilterMembers(ratings, (x: ArtistRating) => x.artist == artist, x);
  }

  function StarTotal(rs: seq<ArtistRating>): int {
    if rs == [] then 0 else rs[0].rating + StarTotal(rs[1..])
  }

  /** Every rating contributes between 1 and 5 stars to the total. */
  lemma {:induction false} StarTotalBounds(rs: seq<ArtistRating>)
    ensures |rs| <= StarTotal(rs) <= 5 * |rs|
  {
    if rs != [] {
      StarTotalBounds(rs[1..]);
    }
  }

  /** `Avg('rating')` over the artist's ratings, `or 0`: the mean of their
      stars, and 0 when they have none. The database computes a floating
      point average; here it is the real quotient it approximates. */
  function AverageRating(ratings: seq<ArtistRating>, artist: UserId): (avg: real)
    ensures RatingsOf(ratings, artist) == [] ==> avg == 0.0
    ensures RatingsOf(ratings, artist) != [] ==> 1.0 <= avg <= 5.0
  {
    var mine := RatingsOf(ratings, artist);
    if mine == [] then 0.0
    else
      StarTotalBounds(mine);
      MeanBounds(StarTotal(mine), |mine|);
      StarTotal(mine) as real / |mine| as real
  }

  /** The average times the number of ratings is the artist's star total:
      it is their arithmetic mean. */
  lemma AverageIsMean(ratings: seq<ArtistRating>, artist: UserId)
    requires RatingsOf(ratings, artist) != []
    ensures AverageRating(ratings, artist) * |RatingsOf(ratings, artist)| as real
         == StarTotal(RatingsOf(ratings, artist)) as real
  {
    var mine := RatingsOf(ratings, artist);
    StarTotalBounds(mine);
    MeanBounds(StarTotal(mine), |mine|);
  }

  lemma MeanBounds(total: int, n: int)
    requires 0 < n <= total <= 5 * n
    ensures (total as real / n as real) * n as real == total as real
    ensures 1.0 <= total as real / n as real <= 5.0
  {
    var t, m := total as real, n as real;
    QuotientTimesDivisor(t, m);
    BoundsFromProduct(t / m, m, t);
  }

  lemma QuotientTimesDivisor(t: real, m: real)
    requires m > 0.0
    ensures (t / m) * m == t
  {
  }

  /** A factor whose product with `m` lies between `m` and `5m` lies
      between 1 and 5. */
  lemma BoundsFromProduct(q: real, m: real, t: real)
    requires m > 0.0 && q * m == t && m <= t <= 5.0 * m
    ensures 1.0 <= q <= 5.0
  {
    if q < 1.0 {
      ScaleStrict(q, 1.0, m);
    }
    if q > 5.0 {
      ScaleStrict(5.0, q, m);
    }
  }

  lemma ScaleStrict(a: real, b: real, n: real)
    requires a < b && n > 0.0
    ensures a * n < b * n
  {
    assert (b - a) * n > 0.0;
  }

  /** Nothing stops one rater from rating the same artist twice: a second
      identical rating is stored beside the first and both count. */
  lemma {:induction false} RepeatedRatingsCount(ratings: seq<ArtistRating>, r: ArtistRating)
    ensures |RatingsOf(ratings + [r, r], r.artist)| == |RatingsOf(ratings, r.artist)| + 2
  {
    RatingsOfAppend(ratings, [r, r], r.artist);
    assert RatingsOf([r, r], r.artist) == [r] + RatingsOf([r], r.artist);
    assert RatingsOf([r], r.artist) == [r] + RatingsOf([], r.artist);
  }

  lemma RatingsOfAppend(a: seq<ArtistRating>, b: seq<ArtistRating>, artist: UserId)
    ensures RatingsOf(a + b, artist) == RatingsOf(a, artist) + RatingsOf(b, artist)
  {
    FilterAppend(a, b, (x: ArtistRating) => x.artist == artist);
  }

  /** Outcome of `register`. */
  datatype RegisterResponse =
    | RegisterPage(error: string)    // the form, with an error message or ""
    | RedirectAddArtwork             // a new artist
    | RedirectHome                   // any other new user
    | UsernameRequired               // create_user raises ValueError on an empty username
    | UsernameClash                  // the normalized name is taken: the unique column refuses the row

  /** Outcome of `artist_detail`. */
  datatype ArtistDetailResponse =
    | ArtistNotFound
    | ArtistPage(artist: User, ratings: seq<ArtistRating>, average: real)
    | RedirectArtistDetail(pk: UserId)

  /** `CustomUser.objects.filter(is_staff=True)`: the ids of the users a
      custom order can be assigned to. */
  function StaffIds(users: seq<User>): (r: set<UserId>)
    ensures forall id :: id in r <==> exists u :: u in users && u.isStaff && u.id == id
  {
    set u | u in users && u.isStaff :: u.id
  }

  /** Adding a user who is not staff leaves the staff unchanged. */
  lemma NonStaffKeepsStaff(users: seq<User>, u: User)
    requires !u.isStaff
    ensures StaffIds(users + [u]) == StaffIds(users)
  {
    forall id | id in StaffIds(users + [u])
      ensures id in StaffIds(users)
    {
      var v :| v in users + [u] && v.isStaff && v.id == id;
      assert v in users;
    }
  }

  /** The user table and the rating table. */
  class Directory {
    var users: seq<User>
    var ratings: seq<ArtistRating>

    ghost predicate Valid()
      reads this
    {
      && (forall i :: 0 <= i < |users| ==> users[i].id == i + 1)
      && (forall i, j :: 0 <= i < j < |users| ==> users[i].username != users[j].username)
      && (forall r :: r in ratings ==> 1 <= r.artist <= |users| && 1 <= r.rater <= |users|)
    }

    constructor ()
      ensures Valid() && users == [] && ratings == []
    {
      users := [];
      ratings := [];
    }

    predicate UsernameTaken(name: string)
      reads this
    {
      exists u :: u in users && u.username == name
    }

    /** `register`: the posted name is looked up as posted, and a taken
        one is refused with an error. `create_user` then refuses an empty
        name, and stores the name after `normalize` (Django's
        `normalize_username`, a Unicode normalization, passed in here); a
        normalized name that is already taken is refused by the unique
        username column. Otherwise exactly one user is added, with the
        posted type, `buyer` when none was posted, and not staff, so the
        staff never change. */
    method Register(isPost: bool, username: Option<string>, userType: Option<string>, normalize: string -> string)
      returns (r: RegisterResponse)
      requires Valid()
      modifies this
      ensures Valid() && ratings == old(ratings)
      ensures StaffIds(users) == StaffIds(old(users))
      ensures !isPost ==> r == RegisterPage("") && users == old(users)
      ensures isPost && old(UsernameTaken(username.GetOr(""))) ==>
        r == RegisterPage(USERNAME_TAKEN) && users == old(users)
      ensures isPost && !old(UsernameTaken(username.GetOr(""))) && username.GetOr("") == "" ==>
        r == UsernameRequired && users == old(users)
      ensures isPost && !old(UsernameTaken(username.GetOr(""))) && username.GetOr("") != ""
              && old(UsernameTaken(normalize(username.GetOr("")))) ==>
        r == UsernameClash && users == old(users)
      ensures isPost && !old(UsernameTaken(username.GetOr(""))) && username.GetOr("") != ""
              && !old(UsernameTaken(normalize(username.GetOr("")))) ==>
        && users == old(users) + [User(|old(users)| + 1, normalize(username.GetOr("")), userType.GetOr(BUYER), false)]
        && r == (if userType.GetOr(BUYER) == ARTIST then RedirectAddArtwork else RedirectHome)
    {
      if !isPost {
        return RegisterPage("");
      }
      var name := username.GetOr("");
      if UsernameTaken(name) {
        return RegisterPage(USERNAME_TAKEN);
      }
      if name == "" {
        return UsernameRequired;
      }
      var stored := normalize(name);
      if UsernameTaken(stored) {
        return UsernameClash;
      }
      var user := User(|users| + 1, stored, userType.GetOr(BUYER), false);
      NonStaffKeepsStaff(users, user);
      users := users + [user];
      if IsArtist(user) {
        r := RedirectAddArtwork;
      } else {
        r := RedirectHome;
      }
    }

    /** `artist_detail`: shows the artist's ratings and their average; a
        valid posted rating is stored with the viewed artist and the
        current user and the page is reloaded. */
    method ArtistDetail(pk: UserId, viewer: UserId, isPost: bool, form: RatingForm)
      returns (r: ArtistDetailResponse)
      requires Valid()
      requires 1 <= viewer <= |users|
      modifies this
      ensures Valid() && users == old(users)
      ensures !(1 <= pk <= |users|) ==> r == ArtistNotFound && ratings == old(ratings)
      ensures 1 <= pk <= |users| && isPost && CleanRating(form, pk, viewer).Some? ==>
        && ratings == old(ratings) + [CleanRating(form, pk, viewer).value]
        && r == RedirectArtistDetail(pk)
      ensures 1 <= pk <= |users| && !(isPost && CleanRating(form, pk, viewer).Some?) ==>
        && ratings == old(ratings)
        && r == ArtistPage(users[pk - 1], RatingsOf(ratings, pk), AverageRating(ratings, pk))
    {
      if !(1 <= pk <= |users|) {
        return ArtistNotFound;
      }
      var artist := users[pk - 1];
      var mine := RatingsOf(ratings, pk);
      var average := AverageRating(ratings, pk);
      if isPost {
        var rating := CleanRating(form, pk, viewer);
        if rating.Some? {
          ratings := ratings + [rating.value];
          return RedirectArtistDetail(pk);
        }
      }
      r := ArtistPage(artist, mine, average);
    }
  }
}
