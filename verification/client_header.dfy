/** The header above the selected customer: risk badge, location line and
    re-analyze button (client-header.tsx). */
module ClientHeader {
  import opened Wrappers
  import opened Strings
  import Json
  import Customers

  /** The ways rendering the header throws: `JSON.parse` rejects the
      address text, or `Object.values` is applied to `null`. */
  datatype RenderError = AddressParseError | ValuesOfNull

  /** The property values of an object, each as `join` renders it, joined
      with ", ". */
  function MembersText(members: seq<(string, Json.Value)>): string {
    Join(seq(|members|, i requires 0 <= i < |members| => Json.JoinText(members[i].1)), ", ")
  }

  /** `Object.values(v).join(", ")`, which throws on `null`. */
  function ValuesText(v: Json.Value): (r: Result<string, RenderError>)
    ensures r.Failure? <==> v.JNull?
    ensures v.JObject? ==> r == Success(MembersText(v.members))
  {
    match Json.ObjectValues(v)
    case Failure(_) => Failure(ValuesOfNull)
    case Success(values) =>
      assert v.JObject? ==> seq(|values|, i requires 0 <= i < |values| => Json.JoinText(values[i]))
                            == seq(|v.members|, i requires 0 <= i < |v.members| => Json.JoinText(v.members[i].1));
      Success(Json.JoinValues(values, ", "))
  }

  /** The text of the location line (`locationString` as React renders it):
      a string starting with "{" is parsed and its values joined with ", ";
      an object-typed address has its values joined; any other string is
      shown unchanged; a number is shown in decimal; a boolean or an absent
      address shows nothing. Nothing catches the errors. */
  function Location(parse: string -> Option<Json.Value>, address: Option<Json.Value>): (r: Result<string, RenderError>)
    ensures forall s :: address == Some(Json.JString(s)) && !StartsWith(s, "{") ==> r == Success(s)
    ensures forall s :: address == Some(Json.JString(s)) && StartsWith(s, "{") && parse(s).None?
                        ==> r == Failure(AddressParseError)
    ensures forall s, ms :: address == Some(Json.JString(s)) && StartsWith(s, "{") && parse(s) == Some(Json.JObject(ms))
                        ==> r == Success(MembersText(ms))
    ensures forall ms :: address == Some(Json.JObject(ms)) ==> r == Success(MembersText(ms))
    ensures address == Some(Json.JNull) ==> r == Failure(ValuesOfNull)
    ensures r.Failure? ==> address.Some? && (address.value.JNull? || address.value.JString?)
  {
    match address
    case None => Success("")
    case Some(v) =>
      match v
      case JString(s) =>
        if StartsWith(s, "{") then
          match parse(s)
          case None => Failure(AddressParseError)
          case Some(parsed) => ValuesText(parsed)
        else Success(s)
      case JNumber(n) => Success(Json.NumberText(n))
      case JBool(_) => Success("")
      case _ => ValuesText(v)
  }

  /** An object address stored by the page reaches the header as its JSON
      text; given a `JSON.parse` that reads that text back, the header shows
      the object's values joined with ", ". */
  lemma StoredObjectAddressShown(parse: string -> Option<Json.Value>, c: Customers.Customer,
                                 members: seq<(string, Json.Value)>)
    requires c.address == Some(Json.JObject(members))
    requires parse(Json.Stringify(Json.JObject(members))) == Some(Json.JObject(members))
    ensures Location(parse, Customers.Stored(c).address) == Success(MembersText(members))
  {

  }

  /** A `null` or array address is stored as JSON text that does not start
      with "{", so the header shows that text itself: "null" for `null`. */
  lemma StoredNonObjectAddressShownRaw(parse: string -> Option<Json.Value>, c: Customers.Customer)
    requires c.address.Some? && (c.address.value.JNull? || c.address.value.JArray?)
    ensures Location(parse, Customers.Stored(c).address) == Success(Json.Stringify(c.address.value))
    ensures c.address.value.JNull? ==> Location(parse, Customers.Stored(c).address) == Success("null")
  {

  }

  /** The risk badge colour classes: emerald, red, amber. */
  datatype RiskTone = Emerald | Red | Amber

  /** The badge colour for a risk rating: exact, case-sensitive comparison
      with 'Low' and 'High'; every other rating is amber. */
  function RiskBadgeTone(rating: string): (t: RiskTone)
    ensures t == Emerald <==> rating == "Low"
    ensures t == Red <==> rating == "High"
    ensures t == Amber <==> rating != "Low" && rating != "High"
  {
    if rating == "Low" then Emerald else if rating == "High" then Red else Amber
  }

  /** The re-analyze button as rendered. */
  datatype Button = Button(disabled: bool, title: string, spinning: bool)

  /** The button exists only when an `onAnalyze` handler is given; while
      analyzing it is disabled, spins and is titled "Analyzing...",
      otherwise it is enabled and titled "Re-analyze". */
  function AnalyzeButton(hasOnAnalyze: bool, isAnalyzing: bool): (b: Option<Button>)
    ensures b.Some? <==> hasOnAnalyze
    ensures b.Some? ==> (b.value.disabled <==> isAnalyzing) && (b.value.spinning <==> isAnalyzing)
    ensures b.Some? ==> (b.value.title == "Analyzing..." <==> isAnalyzing)
    ensures b.Some? ==> (b.value.title == "Re-analyze" <==> !isAnalyzing)
  {
    if hasOnAnalyze then
      Some(Button(isAnalyzing, if isAnalyzing then "Analyzing..." else "Re-analyze", isAnalyzing))
    else None
  }
}
