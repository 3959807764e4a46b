/**
 * The price of an apartment inspection (Homebot.py, `calculations`): 80 per
 * square metre, plus a surcharge for every selected add-on service, some of
 * them banded by the number of rooms.
 */
module Pricing {

  // The labels of the selected services, as `button_callback` records them.
  const AreaCheck: string := "Проверка площади ✅"
  const BankEvaluation: string := "Оценка для банка ✅"
  const ThermalInspection: string := "Тепловизионный осмотр ✅"
  const ApartmentPlan: string := "План квартиры в AutoCAD ✅"
  const RepairExamination: string := "Экспертиза ремонта ✅"
  const LegalPenalty: string := "Юридическое взыскание ✅"
  const RadiationMeasurement: string := "Замер радиации ✅"
  const ThermalReport: string := "Тепловизионный отчет ✅"
  const SpecialistVisit: string := "Выезд специалиста НОПРИЗ или НОСТРОЙ ✅"

  /** The nine labels in the order the service buttons are offered. */
  const Services: seq<string> := [
    AreaCheck, BankEvaluation, ThermalInspection, ApartmentPlan, RepairExamination,
    LegalPenalty, RadiationMeasurement, ThermalReport, SpecialistVisit]

  /** The base rate, per square metre. */
  const RatePerMetre: int := 80

  /** A five-band table keyed by the room answer: studio, one, two, three rooms, and any other value. */
  function ByRooms(rooms: string, studio: int, one: int, two: int, three: int, other: int): int {
    if rooms == "Студия" then studio
    else if rooms == "1" then one
    else if rooms == "2" then two
    else if rooms == "3" then three
    else other
  }

  /** What one selected service adds to the price: the branch of the `if`/`elif` chain its label takes. */
  function Surcharge(service: string, area: int, rooms: string): int {
    if service == AreaCheck then ByRooms(rooms, 200, 300, 400, 500, 600)
    else if service == BankEvaluation then 3500
    else if service == ThermalInspection then ByRooms(rooms, 1000, 1500, 2000, 2500, 3000)
    else if service == ApartmentPlan then ByRooms(rooms, 2500, 3000, 3500, 4000, 5000)
    else if service == RadiationMeasurement then 500
    else if service == ThermalReport then 1500
    else if service == SpecialistVisit then 40 * area
    else 0
  }

  /** The surcharges of all the services in the list. */
  function Surcharges(services: seq<string>, area: int, rooms: string): int {
    if services == [] then 0
    else Surcharges(services[..|services| - 1], area, rooms) + Surcharge(services[|services| - 1], area, rooms)
  }

  /** The inspection price: the base rate for the area plus every selected service's surcharge. */
  function Price(area: int, rooms: string, services: seq<string>): int {
    RatePerMetre * area + Surcharges(services, area, rooms)
  }

  /** `calculations`: starts from the base rate and adds each service's surcharge in list order. */
  method Calculations(area: int, rooms: string, services: seq<string>) returns (cost: int)
    ensures cost == Price(area, rooms, services)
  {
    cost := area * 80;
    for i := 0 to |services|
      invariant cost == RatePerMetre * area + Surcharges(services[..i], area, rooms)
    {
      assert services[..i + 1][..i] == services[..i];
      var service := services[i];
      if service == AreaCheck {
        if rooms == "Студия" {
          cost := cost + 200;
        } else if rooms == "1" {
          cost := cost + 300;
        } else if rooms == "2" {
          cost := cost + 400;
        } else if rooms == "3" {
          cost := cost + 500;
        } else {
          cost := cost + 600;
        }
      } else if service == BankEvaluation {
        cost := cost + 3500;
      } else if service == ThermalInspection {
        if rooms == "Студия" {
          cost := cost + 1000;
        } else if rooms == "1" {
          cost := cost + 1500;
        } else if rooms == "2" {
          cost := cost + 2000;
        } else if rooms == "3" {
          cost := cost + 2500;
        } else {
          cost := cost + 3000;
        }
      } else if service == ApartmentPlan {
        if rooms == "Студия" {
          cost := cost + 2500;
        } else if rooms == "1" {
          cost := cost + 3000;
        } else if rooms == "2" {
          cost := cost + 3500;
        } else if rooms == "3" {
          cost := cost + 4000;
        } else {
          cost := cost + 5000;
        }
      } else if service == RadiationMeasurement {
        cost := cost + 500;
      } else if service == ThermalReport {
        cost := cost + 1500;
      } else if service == SpecialistVisit {
        cost := cost + 40 * area;
      }
    }
    assert services[..|services|] == services;
  }

  /**
   * The price list the surcharges follow, written as data: a flat amount, a
   * five-band table by rooms, or an amount per square metre.
   */
  datatype Rate =
    | Flat(amount: int)
    | Banded(studio: int, one: int, two: int, three: int, other: int)
    | PerMetre(perMetre: int)

  const PriceList: map<string, Rate> := map[
    AreaCheck := Banded(200, 300, 400, 500, 600),
    BankEvaluation := Flat(3500),
    ThermalInspection := Banded(1000, 1500, 2000, 2500, 3000),
    ApartmentPlan := Banded(2500, 3000, 3500, 4000, 5000),
    RadiationMeasurement := Flat(500),
    ThermalReport := Flat(1500),
    SpecialistVisit := PerMetre(40)]

  function Apply(rate: Rate, area: int, rooms: string): int {
    match rate
    case Flat(amount) => amount
    case Banded(s, o, tw, th, ot) => ByRooms(rooms, s, o, tw, th, ot)
    case PerMetre(k) => k * area
  }

  /** The nine service labels differ (their lengths or first letters already do). */
  lemma LabelsDiffer()
    ensures |AreaCheck| == 18 && AreaCheck[0] == 'П'
    ensures |BankEvaluation| == 18 && BankEvaluation[0] == 'О'
    ensures |ThermalInspection| == 23 && ThermalInspection[0] == 'Т'
    ensures |ApartmentPlan| == 25 && ApartmentPlan[0] == 'П'
    ensures |RepairExamination| == 20 && RepairExamination[0] == 'Э'
    ensures |LegalPenalty| == 23 && LegalPenalty[0] == 'Ю'
    ensures |RadiationMeasurement| == 16
    ensures |ThermalReport| == 22
    ensures |SpecialistVisit| == 38
  {
  }

  /** Each label is charged exactly as the price list says; a label missing from the list adds nothing. */
  lemma SurchargeFollowsPriceList(service: string, area: int, rooms: string)
    ensures Surcharge(service, area, rooms) == if service in PriceList then Apply(PriceList[service], area, rooms) else 0
  {
    LabelsDiffer();
  }

  /** Repair examination and legal penalty are offered but have no pricing branch: they add nothing. */
  lemma UnpricedServices(area: int, rooms: string)
    ensures Surcharge(RepairExamination, area, rooms) == 0
    ensures Surcharge(LegalPenalty, area, rooms) == 0
  {
    LabelsDiffer();
  }

  /** With no service selected the price is the base rate alone. */
  lemma NoServicesPrice(area: int, rooms: string)
    ensures Price(area, rooms, []) == 80 * area
  {
  }

  /** No surcharge is negative for a non-negative area. */
  lemma SurchargeNonNegative(service: string, area: int, rooms: string)
    requires area >= 0
    ensures Surcharge(service, area, rooms) >= 0
  {
  }

  /** The surcharges of two lists one after the other add up. */
  lemma {:induction false} SurchargesAppend(s: seq<string>, t: seq<string>, area: int, rooms: string)
    ensures Surcharges(s + t, area, rooms) == Surcharges(s, area, rooms) + Surcharges(t, area, rooms)
    decreases |t|
  {
    if t == [] {
      assert s + t == s;
    } else {
      var t' := t[..|t| - 1];
      assert (s + t)[..|s + t| - 1] == s + t';
      SurchargesAppend(s, t', area, rooms);
    }
  }

  /** The price never falls below the base rate for a non-negative area. */
  lemma {:induction false} PriceAtLeastBase(area: int, rooms: string, services: seq<string>)
    requires area >= 0
    ensures Price(area, rooms, services) >= 80 * area
    decreases |services|
  {
    if services != [] {
      PriceAtLeastBase(area, rooms, services[..|services| - 1]);
      SurchargeNonNegative(services[|services| - 1], area, rooms);
    }
  }

  /** Taking one occurrence of `x` out of the list takes exactly its surcharge out of the total. */
  lemma SurchargesRemove(s: seq<string>, i: nat, area: int, rooms: string)
    requires i < |s|
    ensures Surcharges(s, area, rooms) == Surcharge(s[i], area, rooms) + Surcharges(s[..i] + s[i + 1..], area, rooms)
  {
    assert s == s[..i] + [s[i]] + s[i + 1..];
    SurchargesAppend(s[..i] + [s[i]], s[i + 1..], area, rooms);
    SurchargesAppend(s[..i], [s[i]], area, rooms);
    SurchargesAppend(s[..i], s[i + 1..], area, rooms);
    assert [s[i]][..0] == [];
  }

  /** The price depends only on which services are selected and how often, not on their order. */
  lemma {:induction false} PriceOrderIndependent(area: int, rooms: string, s: seq<string>, t: seq<string>)
    requires multiset(s) == multiset(t)
    ensures Price(area, rooms, s) == Price(area, rooms, t)
    decreases |s|
  {
    if s != [] {
      var x := s[|s| - 1];
      var s' := s[..|s| - 1];
      assert s == s' + [x];
      assert x in multiset(t);
      var i :| 0 <= i < |t| && t[i] == x;
      var t' := t[..i] + t[i + 1..];
      TakeOut(s', t, i);
      PriceOrderIndependent(area, rooms, s', t');
      SurchargesRemove(t, i, area, rooms);
    } else {
      assert |t| == |multiset(t)| == 0;
    }
  }

  /** Taking the same element out of two lists with the same elements leaves lists with the same elements. */
  lemma TakeOut(s': seq<string>, t: seq<string>, i: nat)
    requires i < |t| && multiset(s' + [t[i]]) == multiset(t)
    ensures multiset(s') == multiset(t[..i] + t[i + 1..])
  {
    var x, t' := t[i], t[..i] + t[i + 1..];
    assert t == t[..i] + [x] + t[i + 1..];
    calc {
      multiset(t);
      multiset(t[..i]) + multiset{x} + multiset(t[i + 1..]);
      multiset(t') + multiset{x};
    }
    assert multiset(s' + [x]) == multiset(s') + multiset{x};
    forall y
      ensures multiset(s')[y] == multiset(t')[y]
    {
      assert (multiset(s') + multiset{x})[y] == multiset(s')[y] + multiset{x}[y];
      assert (multiset(t') + multiset{x})[y] == multiset(t')[y] + multiset{x}[y];
    }
  }

  /** 50 m², two rooms, nothing selected: 80 * 50. */
  lemma BaseExample()
    ensures Price(50, "2", []) == 4000
  {
  }

  /** 50 m², a studio, the area check selected: 4000 + 200. */
  lemma StudioAreaCheckExample()
    ensures Price(50, "Студия", [AreaCheck]) == 4200
  {
    var s := [AreaCheck];
    assert s[..0] == [] && s[0] == AreaCheck;
    assert Surcharges(s, 50, "Студия") == Surcharges([], 50, "Студия") + Surcharge(AreaCheck, 50, "Студия");
  }

  /** 100 m², four rooms, the specialist visit selected: 8000 + 40 * 100. */
  lemma SpecialistVisitExample()
    ensures Price(100, "4", [SpecialistVisit]) == 12000
  {
    LabelsDiffer();
    var s := [SpecialistVisit];
    assert s[..0] == [] && s[0] == SpecialistVisit;
    assert Surcharges(s, 100, "4") == Surcharges([], 100, "4") + Surcharge(SpecialistVisit, 100, "4");
  }
}
