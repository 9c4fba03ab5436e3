/** Auctions and bidding (auctions/models.py, auctions/views.py). */
module Auctions {
  import opened Common

  /** A `Bid` row of one auction. Bids are kept in the order they were
      accepted; that order stands for `bid_time`. */
  datatype Bid = Bid(bidder: UserId, amount: Cents)

  /** An `Auction` row together with its bids (`auction.bids`). */
  datatype Auction = Auction(
    id: AuctionId,
    artwork: ArtworkId,
    startingBid: Cents,
    currentBid: Cents,
    startTime: int,
    endTime: int,
    isActive: bool,
    winner: Option<UserId>,
    bids: seq<Bid>)

  /** Each accepted bid is strictly above the one before it. */
  predicate Ascending(bids: seq<Bid>) {
    forall i :: 0 < i < |bids| ==> bids[i - 1].amount < bids[i].amount
  }

  /** The state `place_bid` keeps: strictly rising bids starting above
      0, and the current bid and winner taken from the latest one (0 and
      nobody before any bid). */
  predicate WellFormed(a: Auction) {
    && Ascending(a.bids)
    && (a.bids != [] ==> a.bids[0].amount > 0)
    && (a.bids == [] ==> a.currentBid == 0 && a.winner == None)
    && (a.bids != [] ==> a.currentBid == a.bids[|a.bids| - 1].amount
                         && a.winner == Some(a.bids[|a.bids| - 1].bidder))
  }

  /** A new row: `current_bid` defaults to 0 (not to `starting_bid`), the
      auction is active and has no winner and no bids. */
  function NewAuction(id: AuctionId, artwork: ArtworkId, startingBid: Cents,
                      startTime: int, endTime: int): (a: Auction)
    ensures WellFormed(a)
    ensures a.id == id && a.artwork == artwork && a.startingBid == startingBid
    ensures a.startTime == startTime && a.endTime == endTime
    ensures a.currentBid == 0 && a.isActive && a.winner == None && a.bids == []
  {
    Auction(id, artwork, startingBid, 0, startTime, endTime, true, None, [])
  }

  /** One call of `place_bid`: who calls, whether it is a POST, and the
      posted `bid_amount` in cents (absent means 0). */
  datatype BidRequest = BidRequest(bidder: UserId, isPost: bool, amount: Option<Cents>)

  function PostedAmount(req: BidRequest): Cents {
    req.amount.GetOr(0)
  }

  /** `place_bid` on one auction. A bid is accepted exactly when it is a
      POST whose amount is strictly above the current bid; acceptance
      appends one bid and makes its amount the current bid and its bidder
      the winner. Anything else leaves the auction as it was. Nothing but
      the current bid, the winner and the bids ever changes. */
  function PlaceBidOn(a: Auction, req: BidRequest): (r: Auction)
    ensures r.bids == a.bids || r.bids == a.bids + [Bid(req.bidder, PostedAmount(req))]
    ensures r.bids != a.bids <==> req.isPost && PostedAmount(req) > a.currentBid
    ensures r.bids != a.bids ==> r.currentBid == PostedAmount(req) && r.winner == Some(req.bidder)
    ensures r.bids == a.bids ==> r == a
    ensures r == a.(currentBid := r.currentBid, winner := r.winner, bids := r.bids)
    ensures WellFormed(a) ==> WellFormed(r)
  {
    var amount := PostedAmount(req);
    if req.isPost && amount > a.currentBid then
      a.(currentBid := amount, winner := Some(req.bidder), bids := a.bids + [Bid(req.bidder, amount)])
    else a
  }

  /** `place_bid` called once per request, in order. */
  function Replay(a: Auction, reqs: seq<BidRequest>): Auction
    decreases |reqs|
  {
    if reqs == [] then a else Replay(PlaceBidOn(a, reqs[0]), reqs[1..])
  }

  /** Over any run of calls the current bid never goes down, the bid log
      only grows at its end, the invariant is kept, and the artwork,
      starting bid, times and active flag stay as they were. */
  lemma {:induction false} ReplayMonotone(a: Auction, reqs: seq<BidRequest>)
    ensures Replay(a, reqs).currentBid >= a.currentBid
    ensures a.bids <= Replay(a, reqs).bids
    ensures WellFormed(a) ==> WellFormed(Replay(a, reqs))
    ensures Replay(a, reqs).(currentBid := a.currentBid, winner := a.winner, bids := a.bids) == a
    decreases |reqs|
  {
    if reqs != [] {
      ReplayMonotone(PlaceBidOn(a, reqs[0]), reqs[1..]);
    }
  }

  /** In a well-formed auction the current bid is the highest bid: no
      bid is above it, and once there is a bid, the winner placed a bid of
      exactly that amount. */
  lemma {:induction false} CurrentBidIsHighest(a: Auction)
    requires WellFormed(a)
    ensures forall b :: b in a.bids ==> b.amount <= a.currentBid
    ensures a.bids != [] ==> exists b :: b in a.bids && b.amount == a.currentBid && a.winner == Some(b.bidder)
  {
    forall k | 0 <= k < |a.bids|
      ensures a.bids[k].amount <= a.currentBid
    {
      AscendingUpTo(a.bids, k);
    }
  }

  lemma {:induction false} AscendingUpTo(bids: seq<Bid>, k: nat)
    requires Ascending(bids) && k < |bids|
    ensures bids[k].amount <= bids[|bids| - 1].amount
    decreases |bids| - k
  {
    if k < |bids| - 1 {
      AscendingUpTo(bids, k + 1);
    }
  }

  /** From a fresh auction, whatever the requests: every recorded bid is
      at most the current bid, which is the highest bid once one exists. */
  lemma FreshAuctionTracksMaximum(id: AuctionId, artwork: ArtworkId, startingBid: Cents,
                                  startTime: int, endTime: int, reqs: seq<BidRequest>)
    ensures var a := Replay(NewAuction(id, artwork, startingBid, startTime, endTime), reqs);
      && (forall b :: b in a.bids ==> b.amount <= a.currentBid)
      && (a.bids != [] ==> exists b :: b in a.bids && b.amount == a.currentBid && a.winner == Some(b.bidder))
      && (a.bids == [] ==> a.currentBid == 0 && a.winner == None)
  {
    var a0 := NewAuction(id, artwork, startingBid, startTime, endTime);
    ReplayMonotone(a0, reqs);
    CurrentBidIsHighest(Replay(a0, reqs));
  }

  /** The acceptance test looks only at the current bid: on a fresh
      auction any positive bid is accepted, even below the starting bid,
      whatever the active flag and the end time say. */
  lemma BidRuleIgnoresStartAndWindow(a: Auction, active: bool, endTime: int, bidder: UserId, amount: Cents)
    requires a.bids == [] && a.currentBid == 0 && 0 < amount < a.startingBid
    ensures PlaceBidOn(a.(isActive := active, endTime := endTime), BidRequest(bidder, true, Some(amount))).bids
            == [Bid(bidder, amount)]
  {
  }

  /** A POST without an amount is treated as a bid of 0, which a
      well-formed auction never accepts. */
  lemma MissingAmountRejected(a: Auction, bidder: UserId)
    requires WellFormed(a)
    ensures PlaceBidOn(a, BidRequest(bidder, true, None)) == a
  {
    if a.bids != [] {
      CurrentBidIsHighest(a);
      AscendingPositive(a.bids);
    }
  }

  lemma {:induction false} AscendingPositive(bids: seq<Bid>)
    requires Ascending(bids) && bids != [] && bids[0].amount > 0
    ensures bids[|bids| - 1].amount > 0
  {
    AscendingUpTo(bids, 0);
  }

  /** The three-bidder scenario: on an auction whose current bid is
      below 80.00, A's 100.00 is accepted, B's 80.00 is refused, and C's
      150.00 takes over. */
  lemma ThreeBidderScenario(a0: Auction, alice: UserId, bob: UserId, carol: UserId)
    requires a0.currentBid < 8000
    ensures var a := Replay(a0, [BidRequest(alice, true, Some(10000)),
                                 BidRequest(bob, true, Some(8000)),
                                 BidRequest(carol, true, Some(15000))]);
      a.currentBid == 15000 && a.winner == Some(carol)
      && a.bids == a0.bids + [Bid(alice, 10000), Bid(carol, 15000)]
  {
    var reqs := [BidRequest(alice, true, Some(10000)), BidRequest(bob, true, Some(8000)),
                 BidRequest(carol, true, Some(15000))];
    var a1 := PlaceBidOn(a0, reqs[0]);
    assert a1.bids == a0.bids + [Bid(alice, 10000)] && a1.currentBid == 10000;
    var a2 := PlaceBidOn(a1, reqs[1]);
    assert a2 == a1;
    var a3 := PlaceBidOn(a2, reqs[2]);
    assert a3.bids == a0.bids + [Bid(alice, 10000), Bid(carol, 15000)];
    assert reqs[1..][1..][1..] == [];
    assert Replay(a0, reqs) == Replay(a1, reqs[1..]) == Replay(a2, reqs[1..][1..]) == Replay(a3, []);
  }

  /** `auction_detail`: the auction's bids, newest first. In a
      well-formed auction they come in strictly falling amounts and the
      first is the current bid. */
  function BidHistory(a: Auction): (history: seq<Bid>)
    ensures |history| == |a.bids|
    ensures forall i :: 0 <= i < |history| ==> history[i] == a.bids[|a.bids| - 1 - i]
    ensures WellFormed(a) && history != [] ==>
      history[0].amount == a.currentBid && Some(history[0].bidder) == a.winner
  {
    NewestFirst(a.bids)
  }

  lemma BidHistoryFalling(a: Auction)
    requires WellFormed(a)
    ensures forall i :: 0 < i < |BidHistory(a)| ==> BidHistory(a)[i].amount < BidHistory(a)[i - 1].amount
  {
    var h := BidHistory(a);
    forall i | 0 < i < |h|
      ensures h[i].amount < h[i - 1].amount
    {
      assert h[i] == a.bids[|a.bids| - 1 - i] && h[i - 1] == a.bids[|a.bids| - i];
    }
  }

  /** `winners_list`: the auctions that are not active and have a winner,
      in table order. */
  function WinnersList(auctions: seq<Auction>): (winners: seq<Auction>)
    ensures |winners| <= |auctions|
    ensures forall i :: 0 <= i < |winners| ==> !winners[i].isActive && winners[i].winner.Some?
  {
    if auctions == [] then []
    else if !auctions[0].isActive && auctions[0].winner.Some? then [auctions[0]] + WinnersList(auctions[1..])
    else WinnersList(auctions[1..])
  }

  /** Exactly the closed auctions that have a winner are listed. */
  lemma {:induction false} WinnersListMembers(auctions: seq<Auction>, x: Auction)
    ensures x in WinnersList(auctions) <==> x in auctions && !x.isActive && x.winner.Some?
  {
    if auctions != [] {
      WinnersListMembers(auctions[1..], x);
      assert auctions == [auctions[0]] + auctions[1..];
    }
  }

  /** Every listed winner placed the highest bid of that auction. */
  lemma WinnerPlacedHighestBid(auctions: seq<Auction>, x: Auction)
    requires forall a :: a in auctions ==> WellFormed(a)
    requires x in WinnersList(auctions)
    ensures x.bids != [] && exists b :: b in x.bids && Some(b.bidder) == x.winner && b.amount == x.currentBid
  {
    WinnersListMembers(auctions, x);
    CurrentBidIsHighest(x);
  }

  /** While every auction is active (nothing in the views closes one),
      the winners list is empty. */
  lemma {:induction false} NoWinnersWhileActive(auctions: seq<Auction>)
    requires forall i :: 0 <= i < |auctions| ==> auctions[i].isActive
    ensures WinnersList(auctions) == []
  {
    if auctions != [] {
      NoWinnersWhileActive(auctions[1..]);
    }
  }

  /** What `place_bid` answers. */
  datatype BidResponse = AuctionNotFound | RedirectAuctionDetail(pk: AuctionId)

  /** The auction table. Rows are never deleted, so the row at index `i`
      has primary key `i + 1`. */
  class AuctionHouse {
    var auctions: seq<Auction>

    /** Rows are numbered, each keeps the bid invariant, and no artwork
        has two auctions (the one-to-one `artwork` column). */
    ghost predicate Valid()
      reads this
    {
      && (forall i :: 0 <= i < |auctions| ==> auctions[i].id == i + 1 && WellFormed(auctions[i]))
      && (forall i, j :: 0 <= i < j < |auctions| ==> auctions[i].artwork != auctions[j].artwork)
    }

    constructor ()
      ensures Valid() && auctions == []
    {
      auctions := [];
    }

    predicate HasAuctionFor(artwork: ArtworkId)
      reads this
    {
      exists a :: a in auctions && a.artwork == artwork
    }

    /** Creating an `Auction` row with its defaults. A second auction for
        the same artwork violates the one-to-one column and is refused. */
    method Open(artwork: ArtworkId, startingBid: Cents, startTime: int, endTime: int)
      returns (r: Option<AuctionId>)
      requires Valid()
      modifies this
      ensures Valid()
      ensures old(HasAuctionFor(artwork)) ==> r == None && auctions == old(auctions)
      ensures !old(HasAuctionFor(artwork)) ==>
        && r == Some(|old(auctions)| + 1)
        && auctions == old(auctions) + [NewAuction(|old(auctions)| + 1, artwork, startingBid, startTime, endTime)]
    {
      if HasAuctionFor(artwork) {
        return None;
      }
      var pk := |auctions| + 1;
      auctions := auctions + [NewAuction(pk, artwork, startingBid, startTime, endTime)];
      r := Some(pk);
    }

    /** `place_bid`: an unknown auction is not found; otherwise the
        auction becomes `PlaceBidOn` of itself, every other auction is
        untouched, and the answer is the detail page whether or not the
        bid was accepted. */
    method PlaceBid(pk: AuctionId, req: BidRequest) returns (r: BidResponse)
      requires Valid()
      modifies this
      ensures Valid()
      ensures !(1 <= pk <= |old(auctions)|) ==> r == AuctionNotFound && auctions == old(auctions)
      ensures 1 <= pk <= |old(auctions)| ==>
        && r == RedirectAuctionDetail(pk)
        && auctions == old(auctions)[pk - 1 := PlaceBidOn(old(auctions)[pk - 1], req)]
    {
      if !(1 <= pk <= |auctions|) {
        return AuctionNotFound;
      }
      auctions := auctions[pk - 1 := PlaceBidOn(auctions[pk - 1], req)];
      r := RedirectAuctionDetail(pk);
    }

    /** `auction_detail`: the auction and its bids, newest first. */
    function AuctionDetail(pk: AuctionId): (r: Option<(Auction, seq<Bid>)>)
      reads this
      ensures r.Some? <==> 1 <= pk <= |auctions|
      ensures r.Some? ==> r.value.0 == auctions[pk - 1] && r.value.1 == BidHistory(auctions[pk - 1])
    {
      if 1 <= pk <= |auctions| then Some((auctions[pk - 1], BidHistory(auctions[pk - 1]))) else None
    }
  }
}
