/** `normalizeCreateCampaignInput`. */
module CreateInputs {
  import opened Basics
  import opened Text
  import opened Selections

  /** The columns of a create request that the protocol depends on, as they arrive. */
  datatype CreateInput = CreateInput(company: int, name: string, instance: string, text: string, mode: string,
                                     contacts: seq<string>)

  /** An accepted request: `at` is None for a campaign to be sent now. */
  datatype Order = Order(instance: InstanceId, at: Option<Time>, contacts: seq<string>)

  /** `schedule` is the instant that the schedule and its time zone denote, if they parse. */
  function Normalized(input: CreateInput, schedule: Option<Time>): Option<Order> {
    var mode := Lower(Trim(input.mode));
    if input.company <= 0 || Trim(input.name) == "" || Trim(input.instance) == "" || Trim(input.text) == "" then None
    else if mode != "" && mode != "now" && mode != "scheduled" then None
    else if Kept(input.contacts) == [] then None
    else if mode == "scheduled" then
      if schedule.None? then None else Some(Order(Trim(input.instance), schedule, Kept(input.contacts)))
    else Some(Order(Trim(input.instance), None, Kept(input.contacts)))
  }

  /** A request names a company, has a name, an instance, a text and a contact that are not blank, and a send mode that
      is blank, `now`, or `scheduled` with a schedule that parses. */
  ghost predicate Acceptable(input: CreateInput, schedule: Option<Time>) {
    && input.company > 0 && !IsBlank(input.name) && !IsBlank(input.instance) && !IsBlank(input.text)
    && Visible(input.contacts) > 0
    && (IsBlank(input.mode) || Spells(input.mode, "now") || (Spells(input.mode, "scheduled") && schedule.Some?))
  }

  /** The order repeats the request: its instance, the instant if it is to be sent later, and every contact that is not
      blank, in order; all of them without the blanks around them. */
  ghost predicate Matches(input: CreateInput, schedule: Option<Time>, order: Order) {
    && Unpadded(input.instance, order.instance)
    && order.at == (if Spells(input.mode, "scheduled") then schedule else None)
    && Keeps(input.contacts, order.contacts) && |order.contacts| == Visible(input.contacts) > 0
  }

  method Normalize(input: CreateInput, schedule: Option<Time>) returns (order: Option<Order>)
    ensures order == Normalized(input, schedule)
    ensures order.Some? <==> Acceptable(input, schedule)
    ensures order.Some? ==> Matches(input, schedule, order.value)
  {
    AcceptedIff(input, schedule);
    var name, instance, text := Trim(input.name), Trim(input.instance), Trim(input.text);
    var mode := Lower(Trim(input.mode));
    if input.company <= 0 || name == "" || instance == "" || text == "" {
      return None;
    }
    if mode == "" {
      mode := "now";
    }
    if mode != "now" && mode != "scheduled" {
      return None;
    }
    var contacts: seq<string> := [];
    for i := 0 to |input.contacts|
      invariant contacts == Kept(input.contacts[..i])
    {
      assert input.contacts[..i + 1][..i] == input.contacts[..i];
      var contact := Trim(input.contacts[i]);
      if contact != "" {
        contacts := contacts + [contact];
      }
    }
    assert input.contacts[..|input.contacts|] == input.contacts;
    if |contacts| == 0 {
      return None;
    }
    if mode == "scheduled" {
      if schedule.None? {
        return None;
      }
      return Some(Order(instance, schedule, contacts));
    }
    return Some(Order(instance, None, contacts));
  }

  // ------------------------------------------------------------ what it means

  /** A request is accepted if and only if it is acceptable, and then the order repeats it. */
  lemma AcceptedIff(input: CreateInput, schedule: Option<Time>)
    ensures Normalized(input, schedule).Some? <==> Acceptable(input, schedule)
    ensures Normalized(input, schedule).Some? ==> Matches(input, schedule, Normalized(input, schedule).value)
  {
    hide Trim, Lower, IsBlank, Spells, Unpadded, Keeps, Visible, LowerWord;
    TrimmedAwayIff(input.name);
    TrimmedAwayIff(input.instance);
    TrimmedAwayIff(input.text);
    TrimIffUnpadded(input.instance, Trim(input.instance));
    KeptIsPicked(input.contacts);
    ModeIff(input.mode);
  }

  lemma ModeIff(mode: string)
    ensures Lower(Trim(mode)) == "" <==> IsBlank(mode)
    ensures Lower(Trim(mode)) == "now" <==> Spells(mode, "now")
    ensures Lower(Trim(mode)) == "scheduled" <==> Spells(mode, "scheduled")
  {
    hide Trim, IsBlank, Spells;
    TrimmedAwayIff(mode);
    SpellsIff(mode, "now");
    SpellsIff(mode, "scheduled");
  }

  /** A request is never turned into two orders. */
  lemma OrderIsUnique(input: CreateInput, schedule: Option<Time>, a: Order, b: Order)
    requires Matches(input, schedule, a) && Matches(input, schedule, b)
    ensures a == b
  {
    hide Unpadded, Keeps;
    TrimIffUnpadded(input.instance, a.instance);
    TrimIffUnpadded(input.instance, b.instance);
    KeepsIsUnique(input.contacts, a.contacts, b.contacts);
  }
}
