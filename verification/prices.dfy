/** The observation graph builder of src/prices.ts: a price series becomes one
    SOSA observation per timestamp, each with a result time, three fixed
    provenance statements and a QUDT quantity value in EUR/kWh. The n3 Writer
    is modelled as the list of statements it accumulates and the prefix table
    it is created with; its serialisation is not part of this model. */
module Prices {
  import opened Wrappers
  import opened Numerals
  import opened Calendar
  import opened Config
  import opened Types

  /** The IRIs the builder names: the fixed vocabulary it uses and the IRI it
      mints for each observation. Iri gives the text of each. */
  datatype Name =
    | RdfType | SosaObservation | SosaResultTime | SosaHasResult
    | XsdDateTime | XsdFloat
    | DctSource | DctLicense | DctCreator
    | SmardWebsite | CcBy40
    | QudtQuantityValue | QudtNumericValue | QudtUnit | EurPerKiloWattHour
    | ObservationIri(unixSecond: int)

  /** The IRI minted for the observation at Unix second t. */
  function ObservationUri(t: int): string {
    BaseObservationUrl + "price_" + IntToString(t)
  }

  function Iri(n: Name): string {
    match n
    case RdfType => RdfNamespace + "type"
    case SosaObservation => SosaNamespace + "Observation"
    case SosaResultTime => SosaNamespace + "resultTime"
    case SosaHasResult => SosaNamespace + "hasResult"
    case XsdDateTime => XsdNamespace + "dateTime"
    case XsdFloat => XsdNamespace + "float"
    case DctSource => "http://purl.org/dc/terms/source"
    case DctLicense => "http://purl.org/dc/terms/license"
    case DctCreator => "http://purl.org/dc/terms/creator"
    case SmardWebsite => "https://www.smard.de/"
    case CcBy40 => "https://creativecommons.org/licenses/by/4.0/"
    case QudtQuantityValue => QudtNamespace + "QuantityValue"
    case QudtNumericValue => QudtNamespace + "numericValue"
    case QudtUnit => QudtNamespace + "unit"
    case EurPerKiloWattHour => QudtUnitNamespace + "CCY_EUR-PER-KiloW-HR"
    case ObservationIri(t) => ObservationUri(t)
  }

  /** What a literal is built from: a fixed text, the instant whose
      toISOString is the lexical form, a number whose lexical form is
      Number.prototype.toString (not modelled; the value is kept), or NaN,
      which is what dividing a missing price (undefined) by 1000 gives. */
  datatype LiteralValue =
    | Text(text: string)
    | Instant(milliseconds: int)
    | Number(value: real)
    | NotANumber

  /** An RDF term as the builder hands it to the writer. A literal without a
      datatype argument has datatypeIri None. */
  datatype Term =
    | NamedNode(name: Name)
    | Literal(value: LiteralValue, datatypeIri: Option<Name>)
      /** The inline blank node of writer.blank([...]), with its
          predicate-object pairs in order. */
    | BlankNode(properties: seq<PredicateObject>)

  datatype PredicateObject = PredicateObject(pred: Term, obj: Term)

  datatype Quad = Quad(subject: Term, pred: Term, obj: Term)

  /** The lexical form the writer receives for a literal, where the model
      determines it: instants of the years 1970 to 9999 and fixed texts. */
  function LexicalForm(v: LiteralValue): Option<string> {
    match v
    case Text(s) => Some(s)
    case Instant(ms) => if 0 <= ms < MaxTime then Some(ToIsoString(ms)) else None
    case Number(_) => None
    case NotANumber => Some("NaN")
  }

  /** What writer.end would serialise: the prefixes, the requested content
      type (from which the serialisation syntax is chosen) and the statements. */
  datatype RdfDocument = RdfDocument(
    prefixes: seq<(string, string)>, contentType: Option<string>, quads: seq<Quad>)

  /** The prefix table every writer is created with, in declaration order. */
  const PrefixTable: seq<(string, string)> := [
    ("sosa", SosaNamespace),
    ("rdf", RdfNamespace),
    ("xsd", XsdNamespace),
    ("qudt", QudtNamespace),
    ("qudt_unit", QudtUnitNamespace),
    ("dct", DctNamespace),
    ("cc", CcNamespace)
  ]

  const CreatorName := "Bundesnetzagentur | SMARD.de"

  /** The predicates of an observation's statements, in the order they are added. */
  const ObservationPredicates: seq<Term> := [
    NamedNode(RdfType), NamedNode(SosaResultTime), NamedNode(DctSource),
    NamedNode(DctLicense), NamedNode(DctCreator), NamedNode(SosaHasResult)
  ]

  /** First Unix second past the year 9999. */
  const MaxSeconds: int := 253402300800

  /** Timestamps whose instant toISOString writes with a four-digit year
      from 1970 on. */
  predicate ValidTimestamp(t: int) {
    0 <= t < MaxSeconds
  }

  /** The largest distance from the epoch, in milliseconds, that a JavaScript
      Date holds (TimeClip in ECMA-262). Further out the Date is invalid and
      toISOString throws a RangeError. */
  const MaxDateDistance: int := 8640000000000000

  /** A timestamp whose result time toISOString can write at all. */
  predicate Representable(t: int) {
    -MaxDateDistance <= t * 1000 <= MaxDateDistance
  }

  predicate AllRepresentable(unixSeconds: seq<int>) {
    forall i :: 0 <= i < |unixSeconds| ==> Representable(unixSeconds[i])
  }

  /** The message of the RangeError toISOString throws for an invalid Date. */
  const InvalidTimeValue := "Invalid time value"

  /** The sosa:resultTime object: the instant t * 1000 ms, typed xsd:dateTime. */
  function ResultTime(t: int): Term {
    Literal(Instant(t * 1000), Some(XsdDateTime))
  }

  /** price[i] / 1000: the price of observation i in EUR/kWh, or NaN when the
      price series has no entry i (JavaScript reads undefined there). */
  function PerKiloWattHour(price: seq<real>, i: int): (v: LiteralValue)
    ensures 0 <= i < |price| ==> v.Number? && v.value * 1000.0 == price[i]
    ensures !(0 <= i < |price|) ==> v == NotANumber
  {
    if 0 <= i < |price| then Number(price[i] / 1000.0) else NotANumber
  }

  /** The sosa:hasResult object: a QUDT quantity value in EUR/kWh. */
  function QuantityValue(v: LiteralValue): Term {
    BlankNode([
      PredicateObject(NamedNode(RdfType), NamedNode(QudtQuantityValue)),
      PredicateObject(NamedNode(QudtNumericValue), Literal(v, Some(XsdFloat))),
      PredicateObject(NamedNode(QudtUnit), NamedNode(EurPerKiloWattHour))
    ])
  }

  /** The statements one iteration of the conversion loop adds. */
  function ObservationQuads(t: int, price: LiteralValue): (r: seq<Quad>)
    ensures |r| == 6
  {
    var obs := NamedNode(ObservationIri(t));
    [ Quad(obs, NamedNode(RdfType), NamedNode(SosaObservation)),
      Quad(obs, NamedNode(SosaResultTime), ResultTime(t)),
      Quad(obs, NamedNode(DctSource), NamedNode(SmardWebsite)),
      Quad(obs, NamedNode(DctLicense), NamedNode(CcBy40)),
      Quad(obs, NamedNode(DctCreator), Literal(Text(CreatorName), None)),
      Quad(obs, NamedNode(SosaHasResult), QuantityValue(price)) ]
  }

  /** The statements of the whole series, observation after observation.
      Iteration follows the timestamps: prices past the last timestamp are
      ignored, and a timestamp without a price gets the value NaN. */
  function Graph(unixSeconds: seq<int>, price: seq<real>): (r: seq<Quad>)
    ensures |r| == 6 * |unixSeconds|
  {
    if unixSeconds == [] then
      []
    else
      var n := |unixSeconds| - 1;
      Graph(unixSeconds[..n], price) + ObservationQuads(unixSeconds[n], PerKiloWattHour(price, n))
  }

  /** The n3 Writer, reduced to what the builder observes: the prefixes and
      format it is created with and the statements added to it. */
  class Writer {
    const prefixes: seq<(string, string)>
    const contentType: Option<string>
    var quads: seq<Quad>

    constructor (prefixes: seq<(string, string)>, contentType: Option<string>)
      ensures this.prefixes == prefixes && this.contentType == contentType
      ensures quads == []
    {
      this.prefixes := prefixes;
      this.contentType := contentType;
      quads := [];
    }

    /** writer.addQuad: appends one statement. */
    method AddQuad(subject: Term, pred: Term, obj: Term)
      modifies this
      ensures quads == old(quads) + [Quad(subject, pred, obj)]
    {
      quads := quads + [Quad(subject, pred, obj)];
    }
  }

  /** The forEach callback of pricesToRDF for the timestamp at `index`:
      adds that observation's six statements, in order, to the writer. When
      the timestamp lies outside the range of a Date, only the type statement
      is added before toISOString throws, and `ok` is false. */
  method AddObservation(writer: Writer, response: PriceResponse, timestamp: int, index: int)
    returns (ok: bool)
    modifies writer
    ensures ok <==> Representable(timestamp)
    ensures ok ==> writer.quads
                   == old(writer.quads) + ObservationQuads(timestamp, PerKiloWattHour(response.price, index))
    ensures !ok ==> writer.quads
                    == old(writer.quads) + ObservationQuads(timestamp, PerKiloWattHour(response.price, index))[..1]
  {
    var observationUri := NamedNode(ObservationIri(timestamp));
    writer.AddQuad(observationUri, NamedNode(RdfType), NamedNode(SosaObservation));
    if !Representable(timestamp) {
      return false;
    }
    writer.AddQuad(observationUri, NamedNode(SosaResultTime),
                   Literal(Instant(timestamp * 1000), Some(XsdDateTime)));
    writer.AddQuad(observationUri, NamedNode(DctSource), NamedNode(SmardWebsite));
    writer.AddQuad(observationUri, NamedNode(DctLicense), NamedNode(CcBy40));
    writer.AddQuad(observationUri, NamedNode(DctCreator), Literal(Text(CreatorName), None));
    var priceInEurPerKwh :=
      if 0 <= index < |response.price| then Number(response.price[index] / 1000.0) else NotANumber;
    writer.AddQuad(observationUri, NamedNode(SosaHasResult), BlankNode([
      PredicateObject(NamedNode(RdfType), NamedNode(QudtQuantityValue)),
      PredicateObject(NamedNode(QudtNumericValue), Literal(priceInEurPerKwh, Some(XsdFloat))),
      PredicateObject(NamedNode(QudtUnit), NamedNode(EurPerKiloWattHour))
    ]));
    ok := true;
  }

  /** pricesToRDF up to the serialisation step. When every timestamp lies in
      the range of a Date, the document holds the statements of every
      observation, in timestamp order, with the fixed prefix table; otherwise
      the conversion throws the RangeError of toISOString. */
  method PricesToRdf(response: PriceResponse, contentType: Option<string>)
    returns (r: Result<RdfDocument, string>)
    ensures r.Success? <==> AllRepresentable(response.unixSeconds)
    ensures r.Failure? ==> r.error == InvalidTimeValue
    ensures r.Success? ==> && r.value.prefixes == PrefixTable
                           && r.value.contentType == contentType
                           && r.value.quads == Graph(response.unixSeconds, response.price)
  {
    var writer := new Writer(PrefixTable, contentType);
    var unixSeconds := response.unixSeconds;
    var index := 0;
    while index < |unixSeconds|
      invariant 0 <= index <= |unixSeconds|
      invariant forall j :: 0 <= j < index ==> Representable(unixSeconds[j])
      invariant writer.quads == Graph(unixSeconds[..index], response.price)
    {
      var ok := AddObservation(writer, response, unixSeconds[index], index);
      if !ok {
        return Failure(InvalidTimeValue);
      }
      GraphExtend(unixSeconds, response.price, index);
      index := index + 1;
    }
    assert unixSeconds[..index] == unixSeconds;
    r := Success(RdfDocument(writer.prefixes, writer.contentType, writer.quads));
  }

  /** One more timestamp adds its observation's statements at the end. */
  lemma GraphExtend(unixSeconds: seq<int>, price: seq<real>, i: int)
    requires 0 <= i < |unixSeconds|
    ensures Graph(unixSeconds[..i + 1], price)
            == Graph(unixSeconds[..i], price) + ObservationQuads(unixSeconds[i], PerKiloWattHour(price, i))
  {
    assert unixSeconds[..i + 1][..i] == unixSeconds[..i];
  }

  // Properties of the statement list

  /** The six statements of observation i sit at positions 6i..6i+5, so every
      statement of observation i precedes every statement of observation i+1. */
  lemma {:induction false} GraphAt(unixSeconds: seq<int>, price: seq<real>, i: int, k: int)
    requires 0 <= i < |unixSeconds| && 0 <= k < 6
    ensures Graph(unixSeconds, price)[6 * i + k]
            == ObservationQuads(unixSeconds[i], PerKiloWattHour(price, i))[k]
  {
    var n := |unixSeconds| - 1;
    if i < n {
      GraphAt(unixSeconds[..n], price, i, k);
    }
  }

  /** Every statement of the graph, by position: statement 6i+k belongs to the
      i-th timestamp, has the k-th observation predicate, and its object is the
      type, the result time, one of the three provenance constants, or the
      quantity value holding price[i] / 1000 EUR/kWh (NaN without a price[i]). */
  lemma GraphStatement(unixSeconds: seq<int>, price: seq<real>, j: int)
    requires 0 <= j < 6 * |unixSeconds|
    ensures var i, k := j / 6, j % 6;
      var q := Graph(unixSeconds, price)[j];
      && q.subject == NamedNode(ObservationIri(unixSeconds[i]))
      && q.pred == ObservationPredicates[k]
      && (k == 0 ==> q.obj == NamedNode(SosaObservation))
      && (k == 1 ==> q.obj == Literal(Instant(unixSeconds[i] * 1000), Some(XsdDateTime)))
      && (k == 2 ==> q.obj == NamedNode(SmardWebsite))
      && (k == 3 ==> q.obj == NamedNode(CcBy40))
      && (k == 4 ==> q.obj == Literal(Text("Bundesnetzagentur | SMARD.de"), None))
      && (k == 5 ==> q.obj.BlankNode? && |q.obj.properties| == 3
                     && q.obj.properties[0] == PredicateObject(NamedNode(RdfType), NamedNode(QudtQuantityValue))
                     && q.obj.properties[1].pred == NamedNode(QudtNumericValue)
                     && q.obj.properties[1].obj.Literal?
                     && q.obj.properties[1].obj.datatypeIri == Some(XsdFloat)
                     && (i < |price| ==> q.obj.properties[1].obj.value.Number?
                                         && q.obj.properties[1].obj.value.value * 1000.0 == price[i])
                     && (i >= |price| ==> q.obj.properties[1].obj.value == NotANumber)
                     && q.obj.properties[2] == PredicateObject(NamedNode(QudtUnit), NamedNode(EurPerKiloWattHour)))
  {
  }

  /** Two observations share an IRI exactly when their timestamps are equal;
      repeated timestamps are not merged. */
  lemma ObservationUriInjective(a: int, b: int)
    ensures Iri(ObservationIri(a)) == Iri(ObservationIri(b)) <==> a == b
  {
    var prefix := BaseObservationUrl + "price_";
    if ObservationUri(a) == ObservationUri(b) {
      assert IntToString(a) == ObservationUri(a)[|prefix|..];
      assert IntToString(b) == ObservationUri(b)[|prefix|..];
      IntToStringInjective(a, b);
    }
  }

  /** Number of statements typing a subject as sosa:Observation. */
  function CountObservations(quads: seq<Quad>): nat {
    if quads == [] then 0
    else CountObservations(quads[..|quads| - 1])
         + (if quads[|quads| - 1].pred == NamedNode(RdfType)
               && quads[|quads| - 1].obj == NamedNode(SosaObservation) then 1 else 0)
  }

  lemma {:induction false} CountObservationsAppend(a: seq<Quad>, b: seq<Quad>)
    ensures CountObservations(a + b) == CountObservations(a) + CountObservations(b)
    decreases |b|
  {
    if b != [] {
      var n := |b| - 1;
      assert (a + b)[..|a + b| - 1] == a + b[..n];
      CountObservationsAppend(a, b[..n]);
    } else {
      assert a + b == a;
    }
  }

  /** Exactly one observation is typed per timestamp, whether or not
      timestamps repeat. */
  lemma {:induction false} OneObservationPerTimestamp(unixSeconds: seq<int>, price: seq<real>)
    ensures CountObservations(Graph(unixSeconds, price)) == |unixSeconds|
  {
    if unixSeconds != [] {
      var n := |unixSeconds| - 1;
      OneObservationPerTimestamp(unixSeconds[..n], price);
      var block := ObservationQuads(unixSeconds[n], PerKiloWattHour(price, n));
      CountObservationsAppend(Graph(unixSeconds[..n], price), block);
      assert CountObservations(block[..1]) == 1;
      assert block[..2][..1] == block[..1];
      assert CountObservations(block[..2]) == 1;
      assert block[..3][..2] == block[..2];
      assert CountObservations(block[..3]) == 1;
      assert block[..4][..3] == block[..3];
      assert CountObservations(block[..4]) == 1;
      assert block[..5][..4] == block[..4];
      assert CountObservations(block[..5]) == 1;
      assert block[..5] == block[..|block| - 1];
      assert CountObservations(block) == 1;
    }
  }

  /** The result time of a timestamp of the years 1970 to 9999 is typed
      xsd:dateTime and has as lexical form the toISOString text of its
      instant. That text has the shape YYYY-MM-DDTHH:mm:ss.000Z and reads
      back as exactly that instant. */
  lemma ResultTimeLexicalForm(t: int)
    requires ValidTimestamp(t)
    ensures Representable(t)
    ensures ResultTime(t).datatypeIri == Some(XsdDateTime)
    ensures 0 <= t * 1000 < MaxTime
    ensures LexicalForm(ResultTime(t).value) == Some(ToIsoString(t * 1000))
    ensures var s := LexicalForm(ResultTime(t).value).value;
      && IsoShape(s)
      && s[20..24] == "000Z"
      && ParseIsoString(s).Some?
      && ValidDateTime(ParseIsoString(s).value)
      && TimeFromDateTime(ParseIsoString(s).value) == t * 1000
  {
    var ms := t * 1000;
    assert 0 <= ms < MaxTime;
    assert LexicalForm(ResultTime(t).value) == Some(ToIsoString(ms));
    WholeSecondsRoundTrip(t);
  }

  /** The example timestamp 1704067200 is the first instant of 2024. */
  lemma ResultTimeExample()
    ensures LexicalForm(ResultTime(1704067200).value) == Some("2024-01-01T00:00:00.000Z")
  {
    IsoStringExample();
  }

  /** Hourly timestamps: an hour after a timestamp whose hour is before 23,
      the result time falls on the same day, in the next hour, with the
      minutes, seconds and milliseconds unchanged (so from 00:00 the next
      two timestamps give hours 01 and 02). */
  lemma ResultTimeNextHour(t: int)
    requires 0 <= t && ValidTimestamp(t + 3600)
    requires DateTimeFromTime(t * 1000).hour < 23
    ensures var f := DateTimeFromTime(t * 1000);
      DateTimeFromTime((t + 3600) * 1000) == f.(hour := f.hour + 1)
  {
    assert (t + 3600) * 1000 == t * 1000 + MsPerHour;
    NextHourSameDay(t * 1000);
  }

  /** An empty series yields no statement at all. */
  lemma EmptySeries(price: seq<real>)
    ensures Graph([], price) == []
  {
  }
}
