/** The order summary of components/cart/CartSummary.tsx: the delivery zones, the
    selected zone, the delivery fee quoted by the commerce service, and the total.
    The zone list and the fee quote are what the service answered (or `None` when
    the call failed); the fees handed to `onDeliveryFeeChange` are kept as a log. */
module CartSummaryView {
  import opened Common
  import opened Catalog

  /** The `data` of a successful `calculerFraisLivraison` call. */
  datatype Quote = Quote(deliveryFee: Option<int>, timeMin: Option<int>, timeMax: Option<int>, zoneName: Option<string>)

  /** `zones.find(z => z.id === id)` */
  function FindZone(zones: seq<Zone>, id: int): (r: Option<Zone>)
    ensures r.Some? ==> r.value in zones && r.value.id == id
    ensures r.Some? ==> exists k :: 0 <= k < |zones| && zones[k] == r.value
                                    && forall j :: 0 <= j < k ==> zones[j].id != id
    ensures r.None? <==> forall z :: z in zones ==> z.id != id
  {
    FindFirst(zones, (z: Zone) => z.id == id)
  }

  /** `propSelectedZoneId ?? zoneSelectionnee?.id ?? null`: the page's choice wins. */
  function SelectedZoneId(prop: Option<int>, selected: Option<Zone>): (r: Option<int>)
    ensures prop.Some? ==> r == prop
    ensures prop.None? && selected.Some? ==> r == Some(selected.value.id)
    ensures r.None? <==> prop.None? && selected.None?
  {
    if prop.Some? then prop else if selected.Some? then Some(selected.value.id) else None
  }

  /** A fee is asked for only with a truthy zone id (0 is falsy) and a positive subtotal. */
  predicate ShouldQuote(zoneId: Option<int>, subtotal: int) {
    zoneId.Some? && zoneId.value != 0 && subtotal > 0
  }

  /** The zone as updated from a quote: the fee, times and name the service returned. */
  function Quoted(z: Zone, q: Quote): (r: Zone)
    ensures r.id == z.id && r.name == z.name
    ensures r.deliveryFee == q.deliveryFee && r.timeMin == q.timeMin && r.timeMax == q.timeMax
    ensures r.zoneName == q.zoneName
  {
    z.(deliveryFee := q.deliveryFee, timeMin := q.timeMin, timeMax := q.timeMax, zoneName := q.zoneName)
  }

  /** The fee shown after one run of the debounced effect. */
  function FeeAfter(zoneId: Option<int>, subtotal: int, quote: Option<Quote>): (r: int)
    ensures !ShouldQuote(zoneId, subtotal) ==> r == 0
    ensures quote.None? ==> r == 0
    ensures ShouldQuote(zoneId, subtotal) && quote.Some? ==> r == quote.value.deliveryFee.GetOr(0)
  {
    if ShouldQuote(zoneId, subtotal) && quote.Some? then quote.value.deliveryFee.GetOr(0) else 0
  }

  /** `Number(subtotal) + Number(fraisLivraison)` */
  function Total(subtotal: int, fee: int): (r: int)
    ensures r - fee == subtotal
  {
    subtotal + fee
  }

  class Summary {
    /** `selectedZoneId` as passed by the page, if it passes one. */
    var prop: Option<int>
    var zones: seq<Zone>
    var zoneSelectionnee: Option<Zone>
    var fraisLivraison: int
    var isLoadingZones: bool
    var calculatingFee: bool
    /** Every fee handed to `onDeliveryFeeChange`, oldest first. */
    var reported: seq<int>

    /** The fee last reported to the page is the fee shown. */
    predicate Valid()
      reads this
    {
      if reported == [] then fraisLivraison == 0 else reported[|reported| - 1] == fraisLivraison
    }

    constructor (propSelectedZoneId: Option<int>)
      ensures prop == propSelectedZoneId && zones == [] && zoneSelectionnee.None?
      ensures fraisLivraison == 0 && isLoadingZones && !calculatingFee && reported == []
      ensures Valid()
    {
      prop := propSelectedZoneId;
      zones := [];
      zoneSelectionnee := None;
      fraisLivraison := 0;
      isLoadingZones := true;
      calculatingFee := false;
      reported := [];
    }

    /** The zone-loading effect. On success the list is stored and, when the page
        passed a truthy zone id, that zone (or none) becomes the selection. */
    method LoadZones(answer: Option<seq<Zone>>)
      requires Valid()
      modifies this
      ensures Valid()
      ensures !isLoadingZones
      ensures answer.None? ==> zones == old(zones) && zoneSelectionnee == old(zoneSelectionnee)
      ensures answer.Some? ==> zones == answer.value
      ensures answer.Some? && prop.Some? && prop.value != 0
              ==> zoneSelectionnee == FindZone(answer.value, prop.value)
      ensures answer.Some? && !(prop.Some? && prop.value != 0) ==> zoneSelectionnee == old(zoneSelectionnee)
      ensures prop == old(prop) && fraisLivraison == old(fraisLivraison)
      ensures calculatingFee == old(calculatingFee) && reported == old(reported)
    {
      isLoadingZones := true;
      if answer.Some? {
        zones := answer.value;
        if prop.Some? && prop.value != 0 {
          zoneSelectionnee := FindZone(answer.value, prop.value);
        }
      }
      isLoadingZones := false;
    }

    /** One run of the debounced fee effect for `subtotal`. `quote` is the
        service's answer had it been asked (`None`: the call threw);
        `consulted` says whether it was asked. */
    method RefreshFee(subtotal: int, quote: Option<Quote>) returns (consulted: bool)
      requires Valid()
      modifies this
      ensures Valid()
      ensures consulted == ShouldQuote(SelectedZoneId(old(prop), old(zoneSelectionnee)), subtotal)
      ensures fraisLivraison == FeeAfter(SelectedZoneId(old(prop), old(zoneSelectionnee)), subtotal, quote)
      ensures reported == old(reported) + [fraisLivraison]
      ensures !calculatingFee
      ensures consulted && quote.Some? && FindZone(zones, SelectedZoneId(old(prop), old(zoneSelectionnee)).value).Some?
              ==> zoneSelectionnee == Some(Quoted(FindZone(zones, SelectedZoneId(old(prop), old(zoneSelectionnee)).value).value, quote.value))
      ensures !(consulted && quote.Some? && FindZone(zones, SelectedZoneId(old(prop), old(zoneSelectionnee)).value).Some?)
              ==> zoneSelectionnee == old(zoneSelectionnee)
      ensures prop == old(prop) && zones == old(zones) && isLoadingZones == old(isLoadingZones)
    {
      var id := SelectedZoneId(prop, zoneSelectionnee);
      consulted := ShouldQuote(id, subtotal);
      if consulted {
        calculatingFee := true;
        if quote.Some? {
          var fee := quote.value.deliveryFee.GetOr(0);
          fraisLivraison := fee;
          reported := reported + [fee];
          var zone := FindZone(zones, id.value);
          if zone.Some? {
            zoneSelectionnee := Some(Quoted(zone.value, quote.value));
          }
        } else {
          fraisLivraison := 0;
          reported := reported + [0];
        }
        calculatingFee := false;
      } else {
        fraisLivraison := 0;
        reported := reported + [0];
        calculatingFee := false;
      }
    }

    /** The zone select. `parsed` is `parseInt` of the chosen value (`None` for
        NaN, which equals no id); the returned id is what `onZoneSelect` receives. */
    method HandleZoneChange(parsed: Option<int>) returns (selectedId: Option<int>)
      requires Valid()
      modifies this
      ensures Valid()
      ensures parsed.Some? ==> zoneSelectionnee == FindZone(zones, parsed.value)
      ensures parsed.None? ==> zoneSelectionnee.None?
      ensures selectedId.Some? <==> zoneSelectionnee.Some?
      ensures selectedId.Some? ==> parsed == selectedId && zoneSelectionnee.value.id == selectedId.value
      ensures zoneSelectionnee.Some? ==> zoneSelectionnee.value in zones
      ensures prop == old(prop) && zones == old(zones) && fraisLivraison == old(fraisLivraison)
      ensures isLoadingZones == old(isLoadingZones) && calculatingFee == old(calculatingFee)
      ensures reported == old(reported)
    {
      var zone := if parsed.Some? then FindZone(zones, parsed.value) else None;
      zoneSelectionnee := zone;
      selectedId := if zone.Some? then Some(zone.value.id) else None;
    }
  }

  /** The shown total is the subtotal plus the quoted fee when a quote was asked
      for and answered, and the bare subtotal otherwise. */
  lemma TotalAfterRefresh(zoneId: Option<int>, subtotal: int, quote: Option<Quote>)
    ensures ShouldQuote(zoneId, subtotal) && quote.Some? ==>
              Total(subtotal, FeeAfter(zoneId, subtotal, quote)) == subtotal + quote.value.deliveryFee.GetOr(0)
    ensures !(ShouldQuote(zoneId, subtotal) && quote.Some?) ==>
              Total(subtotal, FeeAfter(zoneId, subtotal, quote)) == subtotal
  {
  }

  /** An empty cart never asks for a fee and charges none, whatever zone is chosen. */
  lemma EmptyCartNoFee(zoneId: Option<int>, quote: Option<Quote>)
    ensures !ShouldQuote(zoneId, 0) && FeeAfter(zoneId, 0, quote) == 0
  {
  }

  /** Choosing a listed zone in the select makes it the selection the next fee
      request uses, unless the page controls the selection. */
  lemma ChosenZoneIsQueried(zones: seq<Zone>, z: Zone, prop: Option<int>)
    requires z in zones
    requires forall a, b :: a in zones && b in zones && a.id == b.id ==> a == b
    ensures FindZone(zones, z.id) == Some(z)
    ensures prop.None? ==> SelectedZoneId(prop, FindZone(zones, z.id)) == Some(z.id)
    ensures prop.Some? ==> SelectedZoneId(prop, FindZone(zones, z.id)) == prop
  {
  }
}
