/** The request normaliser of the `/predict` handler: each of the five
    optional request strings is defaulted, stripped (and for body, fuel and
    priority lower-cased), then looked up in a fixed table whose misses fall
    back to a default canonical value. */
module Normalize {
  import opened Common
  import opened Text

  /** The request body: every field may be absent, which `or` does not
      tell apart from JSON null or any other falsy value. */
  datatype FilterRequest = FilterRequest(
    body: Option<string>,
    fuel: Option<string>,
    budget: Option<string>,
    seating: Option<string>,
    priority: Option<string>)

  /** The normalised filters, echoed back as the response's `inputs`. */
  datatype Inputs = Inputs(body: string, fuel: string, budget: string, seating: int, priority: string)

  const BodyMap: map<string, string> := map[
    "suv" := "suv",
    "sedan" := "sedan",
    "hatchback" := "hatchback",
    "hatch" := "hatchback",
    "electric" := "electric",
    "ev" := "electric",
    "luxury" := "luxury",
    "muv" := "suv",
    "mpv" := "suv"]

  const FuelMap: map<string, string> := map[
    "petrol" := "petrol",
    "diesel" := "diesel",
    "electric" := "electric",
    "cng" := "cng",
    "hybrid" := "petrol"]

  /** The budget table's display labels are the front end's, written with
      the rupee sign U+20B9 and the en dash U+2013. */
  const BudgetMap: map<string, string> := map[
    "Under \U{20B9}6 Lakh" := "under_6l",
    "\U{20B9}6\U{2013}10 Lakh" := "6l_10l",
    "\U{20B9}10\U{2013}15 Lakh" := "10l_15l",
    "\U{20B9}15\U{2013}25 Lakh" := "15l_25l",
    "\U{20B9}25\U{2013}50 Lakh" := "25l_50l",
    "\U{20B9}50 Lakh+" := "25l_50l",
    "under_6l" := "under_6l",
    "6l_10l" := "6l_10l",
    "10l_15l" := "10l_15l",
    "15l_25l" := "15l_25l",
    "25l_50l" := "25l_50l"]

  const SeatingMap: map<string, int> := map[
    "5 Seats" := 5,
    "7 Seats" := 7,
    "7+ Seats" := 7,
    "5" := 5,
    "7" := 7]

  const BodyValues: set<string> := {"suv", "sedan", "hatchback", "electric", "luxury"}
  const FuelValues: set<string> := {"petrol", "diesel", "electric", "cng"}
  const BudgetBuckets: set<string> := {"under_6l", "6l_10l", "10l_15l", "15l_25l", "25l_50l"}

  /** Python's `data.get(name) or default`: an absent or empty field is
      replaced by the default; any other string is kept as sent. */
  function OrDefault(field: Option<string>, default: string): string
  {
    match field
    case None => default
    case Some(s) => if s == [] then default else s
  }

  /** `m.get(key, default)`. */
  function Lookup<V(==)>(m: map<string, V>, key: string, default: V): (r: V)
    ensures r == default || r in m.Values
  {
    if key in m then m[key] else default
  }

  /** The key the body and fuel tables are searched with. */
  function FoldedKey(field: Option<string>, default: string): string
  {
    Lower(Strip(OrDefault(field, default)))
  }

  function NormalizeBody(field: Option<string>): (r: string)
    ensures r in BodyValues
  {
    Lookup(BodyMap, FoldedKey(field, "suv"), "suv")
  }

  function NormalizeFuel(field: Option<string>): (r: string)
    ensures r in FuelValues
  {
    Lookup(FuelMap, FoldedKey(field, "petrol"), "petrol")
  }

  /** Budget is stripped but not case-folded. */
  function NormalizeBudget(field: Option<string>): (r: string)
    ensures r in BudgetBuckets
  {
    Lookup(BudgetMap, Strip(OrDefault(field, "\U{20B9}10\U{2013}15 Lakh")), "10l_15l")
  }

  /** Seating is stripped but not case-folded. */
  function NormalizeSeating(field: Option<string>): (r: int)
    ensures r == 5 || r == 7
  {
    Lookup(SeatingMap, Strip(OrDefault(field, "5 Seats")), 5)
  }

  /** The priority is only folded here; its table is the priority
      heuristic's. */
  function NormalizePriority(field: Option<string>): string
  {
    FoldedKey(field, "value")
  }

  function NormalizeRequest(req: FilterRequest): (n: Inputs)
    ensures n.body in BodyValues && n.fuel in FuelValues && n.budget in BudgetBuckets
    ensures n.seating == 5 || n.seating == 7
  {
    Inputs(NormalizeBody(req.body), NormalizeFuel(req.fuel), NormalizeBudget(req.budget),
           NormalizeSeating(req.seating), NormalizePriority(req.priority))
  }

  /** A key already in folded form is searched as it is. */
  lemma FoldedKeyOfKey(s: string, default: string)
    requires s != [] && !IsSpace(s[0]) && !IsSpace(s[|s| - 1])
    requires forall i :: 0 <= i < |s| ==> !IsUpper(s[i])
    ensures FoldedKey(Some(s), default) == s
  {
    assert OrDefault(Some(s), default) == s;
    StripUnpadded(s);
    LowerOfLowercase(s);
  }

  /** An absent or empty field is searched as the default. */
  lemma FoldedKeyOfMissing(default: string)
    requires default != [] && !IsSpace(default[0]) && !IsSpace(default[|default| - 1])
    requires forall i :: 0 <= i < |default| ==> !IsUpper(default[i])
    ensures FoldedKey(None, default) == default
    ensures FoldedKey(Some([]), default) == default
  {
    FoldedKeyOfKey(default, default);
  }

  /** The body and fuel fields ignore case and surrounding whitespace. */
  lemma {:induction false} FoldedKeyInsensitive(s: string, default: string)
    requires s != []
    ensures FoldedKey(Some(Lower(s)), default) == FoldedKey(Some(s), default)
    ensures Strip(s) != [] ==> FoldedKey(Some(Strip(s)), default) == FoldedKey(Some(s), default)
  {
    assert Lower(s) != [];
    assert OrDefault(Some(Lower(s)), default) == Lower(s);
    assert OrDefault(Some(s), default) == s;
    StripLowerCommute(s);
    LowerIdempotent(Strip(s));
    StripIdempotent(s);
  }

  /** Body: a table hit gives the table's value and every miss "suv". */
  lemma BodyLookup(field: Option<string>)
    ensures var key := FoldedKey(field, "suv");
            && (key in BodyMap ==> NormalizeBody(field) == BodyMap[key])
            && (key !in BodyMap ==> NormalizeBody(field) == "suv")
  {
  }

  /** The aliases of the body table. */
  lemma BodyAliases()
    ensures NormalizeBody(Some("hatch")) == "hatchback"
    ensures NormalizeBody(Some("ev")) == "electric"
  {
    FoldedKeyOfKey("hatch", "suv"); BodyLookup(Some("hatch"));
    FoldedKeyOfKey("ev", "suv"); BodyLookup(Some("ev"));
  }

  /** Multi-purpose vehicles are filed as SUVs, and so is any unknown body. */
  lemma BodyFoldsIntoSuv()
    ensures NormalizeBody(Some("muv")) == "suv" && NormalizeBody(Some("mpv")) == "suv"
    ensures NormalizeBody(Some("pickup")) == "suv"
  {
    FoldedKeyOfKey("muv", "suv"); BodyLookup(Some("muv"));
    FoldedKeyOfKey("mpv", "suv"); BodyLookup(Some("mpv"));
    FoldedKeyOfKey("pickup", "suv"); BodyLookup(Some("pickup"));
  }

  /** An absent or empty body is looked up as "suv". */
  lemma BodyDefault()
    ensures NormalizeBody(None) == "suv" && NormalizeBody(Some("")) == "suv"
  {
    FoldedKeyOfMissing("suv"); BodyLookup(None); BodyLookup(Some(""));
  }

  /** Fuel: a table hit gives the table's value and every miss "petrol". */
  lemma FuelLookup(field: Option<string>)
    ensures var key := FoldedKey(field, "petrol");
            && (key in FuelMap ==> NormalizeFuel(field) == FuelMap[key])
            && (key !in FuelMap ==> NormalizeFuel(field) == "petrol")
  {
  }

  /** "hybrid" is folded into "petrol"; the other keys are canonical. */
  lemma FuelHybridIsPetrol()
    ensures NormalizeFuel(Some("hybrid")) == "petrol"
    ensures NormalizeFuel(Some("electric")) == "electric"
  {
    FoldedKeyOfKey("hybrid", "petrol"); FuelLookup(Some("hybrid"));
    FoldedKeyOfKey("electric", "petrol"); FuelLookup(Some("electric"));
  }

  /** An absent or empty fuel is looked up as "petrol". */
  lemma FuelDefault()
    ensures NormalizeFuel(None) == "petrol" && NormalizeFuel(Some("")) == "petrol"
  {
    FoldedKeyOfMissing("petrol"); FuelLookup(None); FuelLookup(Some(""));
  }

  /** A canonical body value normalises to itself, so normalising an
      already normalised body changes nothing. */
  lemma CanonicalBodyFixed(b: string)
    requires b in BodyValues
    ensures NormalizeBody(Some(b)) == b
  {
    FoldedKeyOfKey(b, "suv"); BodyLookup(Some(b));
  }

  /** The same for a canonical fuel value. */
  lemma CanonicalFuelFixed(f: string)
    requires f in FuelValues
    ensures NormalizeFuel(Some(f)) == f
  {
    FoldedKeyOfKey(f, "petrol"); FuelLookup(Some(f));
  }

  /** Every display label resolves to the same bucket as that bucket's raw
      key, and raw keys resolve to themselves. */
  lemma BudgetLabelsAgreeWithKeys()
    ensures forall key :: key in BudgetMap ==> BudgetMap[key] in BudgetMap && BudgetMap[BudgetMap[key]] == BudgetMap[key]
  {
    BudgetKeysFixed();
  }

  /** Each raw bucket key is in the budget table and maps to itself. */
  lemma BudgetKeysFixed()
    ensures forall b :: b in BudgetBuckets ==> b in BudgetMap && BudgetMap[b] == b
  {
  }

  /** Budget: a table hit gives the table's bucket and every miss "10l_15l". */
  lemma BudgetLookup(field: Option<string>)
    ensures var key := Strip(OrDefault(field, "\U{20B9}10\U{2013}15 Lakh"));
            && (key in BudgetMap ==> NormalizeBudget(field) == BudgetMap[key])
            && (key !in BudgetMap ==> NormalizeBudget(field) == "10l_15l")
  {
  }

  /** Above 50 lakh the highest known bucket is used. */
  lemma BudgetAboveFiftyLakh()
    ensures NormalizeBudget(Some("\U{20B9}50 Lakh+")) == "25l_50l"
  {
    assert OrDefault(Some("\U{20B9}50 Lakh+"), "\U{20B9}10\U{2013}15 Lakh") == "\U{20B9}50 Lakh+";
    StripUnpadded("\U{20B9}50 Lakh+");
    BudgetLookup(Some("\U{20B9}50 Lakh+"));
  }

  /** Budget normalisation is idempotent. */
  lemma BudgetIdempotent(field: Option<string>)
    ensures NormalizeBudget(Some(NormalizeBudget(field))) == NormalizeBudget(field)
  {
    var b := NormalizeBudget(field);
    assert OrDefault(Some(b), "\U{20B9}10\U{2013}15 Lakh") == b;
    StripUnpadded(b);
    BudgetKeysFixed();
    BudgetLookup(Some(b));
  }

  /** Budget text is not case-folded: an upper-cased raw key is a miss,
      while surrounding whitespace is still stripped. */
  lemma BudgetCaseSensitive()
    ensures NormalizeBudget(Some("UNDER_6L")) == "10l_15l"
    ensures NormalizeBudget(Some(" under_6l")) == "under_6l"
  {
    assert OrDefault(Some("UNDER_6L"), "\U{20B9}10\U{2013}15 Lakh") == "UNDER_6L";
    StripUnpadded("UNDER_6L");
    BudgetLookup(Some("UNDER_6L"));
    assert OrDefault(Some(" under_6l"), "\U{20B9}10\U{2013}15 Lakh") == " " + "under_6l" + "";
    StripPadded(" ", "under_6l", "");
    BudgetLookup(Some(" under_6l"));
  }

  /** An absent or empty budget is looked up as the 10 to 15 lakh label. */
  lemma BudgetDefault()
    ensures NormalizeBudget(None) == "10l_15l" && NormalizeBudget(Some("")) == "10l_15l"
  {
    StripUnpadded("\U{20B9}10\U{2013}15 Lakh");
    BudgetLookup(None);
    BudgetLookup(Some(""));
  }

  /** Seating: a table hit gives the table's count and every miss 5. */
  lemma SeatingLookup(field: Option<string>)
    ensures var key := Strip(OrDefault(field, "5 Seats"));
            && (key in SeatingMap ==> NormalizeSeating(field) == SeatingMap[key])
            && (key !in SeatingMap ==> NormalizeSeating(field) == 5)
  {
  }

  /** "7+ Seats" counts as seven seats. */
  lemma SeatingSevenPlus()
    ensures NormalizeSeating(Some("7+ Seats")) == 7
  {
    assert OrDefault(Some("7+ Seats"), "5 Seats") == "7+ Seats";
    StripUnpadded("7+ Seats");
    SeatingLookup(Some("7+ Seats"));
  }

  /** An absent or empty seating field gives 5. */
  lemma SeatingDefault()
    ensures NormalizeSeating(None) == 5 && NormalizeSeating(Some("")) == 5
  {
    StripUnpadded("5 Seats");
    SeatingLookup(None);
    SeatingLookup(Some(""));
  }

  /** An absent or empty priority is "value". */
  lemma PriorityDefault()
    ensures NormalizePriority(None) == "value" && NormalizePriority(Some("")) == "value"
  {
    FoldedKeyOfMissing("value");
  }

  /** A whitespace-only priority is present, so it is not defaulted to
      "value": it strips to the empty string. */
  lemma BlankPriorityIsNotDefaulted()
    ensures NormalizePriority(Some("  ")) == ""
  {
    assert OrDefault(Some("  "), "value") == "  " + "" + "";
    StripPadded("  ", "", "");
  }

  /** The filters of the interface's usual request: capitalised body and
      fuel names fold to the table keys; the budget display label and the
      seating label are exact keys. */
  lemma UsualBody()
    ensures NormalizeBody(Some("SUV")) == "suv"
  {
    assert OrDefault(Some("SUV"), "suv") == "SUV";
    StripUnpadded("SUV");
    assert Lower("SUV") == "suv";
    BodyLookup(Some("SUV"));
  }

  lemma UsualFuel()
    ensures NormalizeFuel(Some("Petrol")) == "petrol"
  {
    assert OrDefault(Some("Petrol"), "petrol") == "Petrol";
    StripUnpadded("Petrol");
    assert Lower("Petrol") == "petrol";
    FuelLookup(Some("Petrol"));
  }

  lemma UsualBudget()
    ensures NormalizeBudget(Some("\U{20B9}10\U{2013}15 Lakh")) == "10l_15l"
  {
    StripUnpadded("\U{20B9}10\U{2013}15 Lakh");
    BudgetLookup(Some("\U{20B9}10\U{2013}15 Lakh"));
  }

  lemma UsualSeating()
    ensures NormalizeSeating(Some("5 Seats")) == 5
  {
    assert OrDefault(Some("5 Seats"), "5 Seats") == "5 Seats";
    StripUnpadded("5 Seats");
    SeatingLookup(Some("5 Seats"));
  }

  lemma UsualPriority()
    ensures NormalizePriority(Some("safety")) == "safety"
  {
    FoldedKeyOfKey("safety", "value");
  }

  /** The usual request normalises field by field to the table values. */
  lemma UsualRequest(req: FilterRequest)
    requires req.body == Some("SUV") && req.fuel == Some("Petrol")
    requires req.budget == Some("\U{20B9}10\U{2013}15 Lakh")
    requires req.seating == Some("5 Seats") && req.priority == Some("safety")
    ensures NormalizeRequest(req) == Inputs("suv", "petrol", "10l_15l", 5, "safety")
  {
    UsualBody();
    UsualFuel();
    UsualBudget();
    UsualSeating();
    UsualPriority();
  }

  /** The empty request resolves entirely through the defaults. */
  lemma EmptyRequestDefaults(req: FilterRequest)
    requires req.body.None? && req.fuel.None? && req.budget.None?
    requires req.seating.None? && req.priority.None?
    ensures NormalizeRequest(req) == Inputs("suv", "petrol", "10l_15l", 5, "value")
  {
    BodyDefault();
    FuelDefault();
    BudgetDefault();
    SeatingDefault();
    PriorityDefault();
  }
}
