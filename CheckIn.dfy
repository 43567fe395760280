/**
 * Bracelet delivery: the record update `handleConfirmDelivery` sends for a
 * participant who hands in food, and the collection modal that gathers the
 * food type and weight and gates the confirm button.
 */
module CheckIn {
  import opened Wrappers
  import opened Strings
  import opened Domain
  import opened Statistics

  /** The food buttons of the modal; the last one asks for a custom label. */
  const CommonFoods: seq<string> :=
    ["Arroz", "Feijão", "Macarrão", "Açúcar", "Óleo", "Farinha", "Leite em pó", "Café", "Outros"]
  const Other := "Outros"

  /**
   * The weight slider runs from 1 to 10 kg in steps of 0.5 and starts at
   * 1 kg; the model counts it in half kilograms.
   */
  const MinHalfKilos: nat := 2
  const MaxHalfKilos: nat := 20
  const DefaultHalfKilos: nat := 2

  function Kilos(halves: nat): real
  {
    halves as real / 2.0
  }

  /** The text a template literal writes for the number `halves / 2`: "1", "1.5", "10". */
  function KgText(halves: nat): (r: string)
  {
    NatText(halves / 2) + (if halves % 2 == 1 then ".5" else "")
  }

  /** Reads a weight text back into half kilograms. */
  function ParseKg(t: string): nat
  {
    if |t| >= 2 && t[|t| - 2..] == ".5" && AllDigits(t[..|t| - 2]) then 2 * ParseNat(t[..|t| - 2]) + 1
    else if AllDigits(t) then 2 * ParseNat(t)
    else 0
  }

  /** The weight text loses nothing: it reads back to the same weight. */
  lemma KgTextRoundTrip(halves: nat)
    ensures ParseKg(KgText(halves)) == halves
  {
    var t := KgText(halves);
    var w := NatText(halves / 2);
    ParseNatText(halves / 2);
    if halves % 2 == 1 {
      assert t[..|t| - 2] == w;
      assert t[|t| - 2..] == ".5";
    } else {
      assert t == w;
      if |t| >= 2 {
        assert t[|t| - 1] != '5' || t[|t| - 2] != '.';
        assert IsDigit(t[|t| - 2]);
      }
    }
  }

  /** `Retirada de pulseira: ${foodType} (${kg}kg)`. */
  function DeliveryNote(foodType: string, halves: nat): string
  {
    "Retirada de pulseira: " + foodType + " (" + KgText(halves) + "kg)"
  }

  /**
   * Two notes are equal only for the same food type and weight: the weight
   * text holds no '(', so the last " (" of a note separates the two.
   */
  lemma NoteDeterminesDelivery(t1: string, h1: nat, t2: string, h2: nat)
    requires DeliveryNote(t1, h1) == DeliveryNote(t2, h2)
    ensures t1 == t2 && h1 == h2
  {
    var pre := "Retirada de pulseira: ";
    var k1, k2 := KgText(h1), KgText(h2);
    var m1, m2 := t1 + " (" + k1, t2 + " (" + k2;
    assert DeliveryNote(t1, h1) == pre + m1 + "kg)";
    assert DeliveryNote(t2, h2) == pre + m2 + "kg)";
    assert m1 == DeliveryNote(t1, h1)[|pre|..|DeliveryNote(t1, h1)| - 3];
    assert m2 == DeliveryNote(t2, h2)[|pre|..|DeliveryNote(t2, h2)| - 3];
    assert m1 == m2;
    NoParenInKgText(h1);
    NoParenInKgText(h2);
    LastParenAfter(t1, k1);
    LastParenAfter(t2, k2);
    assert t1 == m1[..|t1|] && t2 == m2[..|t2|];
    assert k1 == m1[|t1| + 2..] && k2 == m2[|t2| + 2..];
    KgTextRoundTrip(h1);
    KgTextRoundTrip(h2);
  }

  /** Position of the last '(' of `s`, or -1. */
  function LastParen(s: string): int
  {
    if s == [] then -1
    else if s[|s| - 1] == '(' then |s| - 1
    else LastParen(s[..|s| - 1])
  }

  lemma {:induction false} LastParenAfter(t: string, k: string)
    requires forall i :: 0 <= i < |k| ==> k[i] != '('
    ensures LastParen(t + " (" + k) == |t| + 1
  {
    var m := t + " (" + k;
    if k != [] {
      var k' := k[..|k| - 1];
      assert m[..|m| - 1] == t + " (" + k';
      LastParenAfter(t, k');
    }
  }

  lemma NoParenInKgText(halves: nat)
    ensures forall i :: 0 <= i < |KgText(halves)| ==> KgText(halves)[i] != '('
  {
    var w := NatText(halves / 2);
    assert forall i :: 0 <= i < |w| ==> IsDigit(w[i]);
  }

  /**
   * The update `handleConfirmDelivery` sends, applied to the stored record:
   * the six delivery fields take the new values and every other field keeps
   * its value.
   */
  function ApplyDelivery(p: Participant, halves: nat, foodType: string, now: string): (r: Participant)
    ensures r.status == Entregue && r.bracelet_delivered && r.delivery_at == Some(now)
    ensures r.food_kg == Kilos(halves) && r.food_type == Some(foodType)
    ensures r.notes == Some(DeliveryNote(foodType, halves))
    ensures r.(status := p.status, bracelet_delivered := p.bracelet_delivered, delivery_at := p.delivery_at,
               food_kg := p.food_kg, food_type := p.food_type, notes := p.notes) == p
  {
    p.(status := Entregue, bracelet_delivered := true, delivery_at := Some(now),
       food_kg := Kilos(halves), food_type := Some(foodType),
       notes := Some(DeliveryNote(foodType, halves)))
  }

  /**
   * Confirming again overwrites: the second delivery replaces every delivery
   * field of the first (the note is replaced, not appended).
   */
  lemma RedeliveryOverwrites(p: Participant, h1: nat, t1: string, n1: string, h2: nat, t2: string, n2: string)
    ensures ApplyDelivery(ApplyDelivery(p, h1, t1, n1), h2, t2, n2) == ApplyDelivery(p, h2, t2, n2)
  {
  }

  /** The record is fully in the delivered state: flag, status, timestamp, a positive weight and a food type. */
  predicate DeliveryRecorded(r: Participant)
  {
    r.status == Entregue && r.bracelet_delivered && Truthy(r.delivery_at) && r.food_kg > 0.0 && Truthy(r.food_type)
  }

  /**
   * Delivering to a pending participant at position `i` moves one record
   * from pending to delivered, adds the weight to the total in place of the
   * record's old weight, adds it to the food grouping under its food type
   * (when one was given), and, when the timestamp is non-empty, counts the
   * record among today's deliveries.
   */
  lemma DeliveryEffect(ps: seq<Participant>, i: nat, halves: nat, foodType: string, now: string)
    requires i < |ps| && !ps[i].bracelet_delivered
    ensures var qs := ps[i := ApplyDelivery(ps[i], halves, foodType, now)];
      && DeliveredCount(qs) == DeliveredCount(ps) + 1
      && PendingCount(qs) == PendingCount(ps) - 1
      && TotalKg(qs) == TotalKg(ps) - ps[i].food_kg + Kilos(halves)
      && (now != "" ==> DeliveredToday(qs, now) == DeliveredToday(ps, now) + 1)
      && TotalAmount(FoodTypeKg(qs)) == TotalAmount(FoodTypeKg(ps)) + (if foodType != "" then Kilos(halves) else 0.0)
      && (foodType != "" ==> AmountFor(FoodTypeKg(qs), foodType) == AmountFor(FoodTypeKg(ps), foodType) + Kilos(halves))
  {
    var x := ApplyDelivery(ps[i], halves, foodType, now);
    var qs := ps[i := x];
    ReplaceRecord(ps, i, x, now);
    ReplaceFoodKg(ps, i, x);
    ReplaceFoodAmount(ps, i, x, foodType);
    FoodTypeKgSpec(ps);
    FoodTypeKgSpec(qs);
    assert !DeliveredOn(ps[i], DatePart(now));
    if now != "" {
      assert DeliveredOn(x, DatePart(now));
    }
  }

  // ------------------------------------------------------------- the modal

  /** "Confirmar e Entregar" is enabled: a food is chosen, and a custom label is typed when it is 'Outros'. */
  predicate ConfirmEnabled(food: string, custom: string)
  {
    !(food == "" || (food == Other && custom == ""))
  }

  /** `selectedFood === 'Outros' ? customFood : selectedFood`. */
  function LabelSent(food: string, custom: string): string
  {
    if food == Other then custom else food
  }

  /** The button is enabled exactly when the label it would send is non-empty. */
  lemma GateIffLabel(food: string, custom: string)
    ensures ConfirmEnabled(food, custom) <==> LabelSent(food, custom) != ""
  {
  }

  /** What one click on the enabled confirm button sends. */
  datatype DeliveryRequest = DeliveryRequest(participantId: Option<string>, halfKilos: nat, foodType: string, at: string)

  class CheckInModal {
    var isOpen: bool
    var selected: Option<Participant>
    var selectedFood: string
    var customFood: string
    var halfKilos: nat
    var lastConfirmedName: string
    var showSuccess: bool

    ghost predicate Valid()
      reads this
    {
      && MinHalfKilos <= halfKilos <= MaxHalfKilos
      && (selectedFood == "" || selectedFood in CommonFoods)
      && (isOpen && selected.Some? ==> !selected.value.bracelet_delivered)
    }

    /** The initial `useState` values. */
    constructor ()
      ensures Valid()
      ensures !isOpen && selected == None && selectedFood == "" && customFood == ""
      ensures halfKilos == DefaultHalfKilos && lastConfirmedName == "" && !showSuccess
    {
      isOpen, selected := false, None;
      selectedFood, customFood, halfKilos := "", "", DefaultHalfKilos;
      lastConfirmedName, showSuccess := "", false;
    }

    /**
     * "Confirmar Entrega", which a table row offers only while the bracelet
     * is not delivered: select the participant and open the modal; the food
     * choice is kept from before.
     */
    method Open(p: Participant)
      requires Valid() && !p.bracelet_delivered
      modifies this
      ensures Valid() && isOpen && selected == Some(p)
      ensures selectedFood == old(selectedFood) && customFood == old(customFood) && halfKilos == old(halfKilos)
      ensures lastConfirmedName == old(lastConfirmedName) && showSuccess == old(showSuccess)
    {
      selected := Some(p);
      isOpen := true;
    }

    /**
     * "Ver Detalhes", which a table row offers only once the bracelet is
     * delivered: the record becomes the selected participant (the detail
     * view it opens is not part of this model). The row is reachable only
     * while the collection modal, which covers the page, is closed.
     */
    method ShowDetails(p: Participant)
      requires Valid() && !isOpen && p.bracelet_delivered
      modifies this
      ensures Valid() && selected == Some(p)
      ensures isOpen == old(isOpen) && selectedFood == old(selectedFood) && customFood == old(customFood)
      ensures halfKilos == old(halfKilos) && lastConfirmedName == old(lastConfirmedName) && showSuccess == old(showSuccess)
    {
      selected := Some(p);
    }

    /** The close cross and "Cancelar": only the modal closes. */
    method Close()
      requires Valid()
      modifies this
      ensures Valid() && !isOpen
      ensures selected == old(selected) && selectedFood == old(selectedFood) && customFood == old(customFood)
      ensures halfKilos == old(halfKilos) && lastConfirmedName == old(lastConfirmedName) && showSuccess == old(showSuccess)
    {
      isOpen := false;
    }

    method ChooseFood(food: string)
      requires Valid() && food in CommonFoods
      modifies this
      ensures Valid() && selectedFood == food
      ensures isOpen == old(isOpen) && selected == old(selected) && customFood == old(customFood)
      ensures halfKilos == old(halfKilos) && lastConfirmedName == old(lastConfirmedName) && showSuccess == old(showSuccess)
    {
      selectedFood := food;
    }

    method TypeCustomFood(text: string)
      requires Valid()
      modifies this
      ensures Valid() && customFood == text
      ensures isOpen == old(isOpen) && selected == old(selected) && selectedFood == old(selectedFood)
      ensures halfKilos == old(halfKilos) && lastConfirmedName == old(lastConfirmedName) && showSuccess == old(showSuccess)
    {
      customFood := text;
    }

    /** The range input only ever reports a value between its min and max on its step. */
    method SlideWeight(halves: nat)
      requires Valid() && MinHalfKilos <= halves <= MaxHalfKilos
      modifies this
      ensures Valid() && halfKilos == halves
      ensures isOpen == old(isOpen) && selected == old(selected) && selectedFood == old(selectedFood)
      ensures customFood == old(customFood) && lastConfirmedName == old(lastConfirmedName) && showSuccess == old(showSuccess)
    {
      halfKilos := halves;
    }

    /**
     * A click on "Confirmar e Entregar". A request is sent only when the
     * modal shows a participant and the button is enabled; it carries the
     * custom label for 'Outros' and the chosen food otherwise. When the
     * update succeeds the modal closes, forgets the participant and resets
     * the food choice and the weight to 1 kg, and the success message shows
     * the participant's name; when it fails nothing changes.
     */
    method Confirm(updateOk: bool, now: string) returns (request: Option<DeliveryRequest>)
      requires Valid()
      modifies this
      ensures Valid()
      ensures request.Some? <==> old(isOpen && selected.Some? && ConfirmEnabled(selectedFood, customFood))
      ensures request.Some? ==>
        && request.value == DeliveryRequest(old(selected).value.id, old(halfKilos), LabelSent(old(selectedFood), old(customFood)), now)
        && request.value.foodType != ""
        && !old(selected).value.bracelet_delivered
        && (now != "" ==> DeliveryRecorded(ApplyDelivery(old(selected).value, request.value.halfKilos, request.value.foodType, now)))
      ensures request.Some? && updateOk ==>
        && !isOpen && selected == None && selectedFood == "" && customFood == "" && halfKilos == DefaultHalfKilos
        && lastConfirmedName == old(selected).value.name && showSuccess
      ensures !(request.Some? && updateOk) ==>
        && isOpen == old(isOpen) && selected == old(selected) && selectedFood == old(selectedFood)
        && customFood == old(customFood) && halfKilos == old(halfKilos)
        && lastConfirmedName == old(lastConfirmedName) && showSuccess == old(showSuccess)
    {
      if !isOpen || selected.None? || !ConfirmEnabled(selectedFood, customFood) {
        return None;
      }
      var p := selected.value;
      GateIffLabel(selectedFood, customFood);
      request := Some(DeliveryRequest(p.id, halfKilos, LabelSent(selectedFood, customFood), now));
      if updateOk {
        lastConfirmedName := p.name;
        isOpen, selected := false, None;
        selectedFood, customFood, halfKilos := "", "", DefaultHalfKilos;
        showSuccess := true;
      }
    }

    /** "Sensacional!" on the success message. */
    method DismissSuccess()
      requires Valid()
      modifies this
      ensures Valid() && !showSuccess
      ensures isOpen == old(isOpen) && selected == old(selected) && selectedFood == old(selectedFood)
      ensures customFood == old(customFood) && halfKilos == old(halfKilos) && lastConfirmedName == old(lastConfirmedName)
    {
      showSuccess := false;
    }
  }
}
