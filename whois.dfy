/** The WHOIS normaliser (`get_domain_details`): turns what the WHOIS client
    hands back into seven report fields with `'N/A'` defaults, or into a
    single `Error` field. */
module Whois {
  import opened Values

  /** What `whois.whois(domain)` does: hand back a bare string, hand back an
      entry whose attributes are Python values (an attribute the entry does
      not have reads as `None`), or raise an exception with a message. */
  datatype Lookup =
    | AsText(text: string)
    | Entry(attrs: map<string, Value>)
    | Raises(message: string)

  const StringResultMessage := "WHOIS information returned as a string. Please check the domain name or WHOIS data source."
  const NotAvailable := Str("N/A")

  /** The seven report fields, each with the entry attribute it is read from. */
  const SourceAttribute: map<Field, string> := map[
    DomainName := "domain_name",
    Registrar := "registrar",
    CreationDate := "creation_date",
    ExpirationDate := "expiration_date",
    LastUpdated := "updated_date",
    NameServers := "name_servers",
    DomainStatus := "status"
  ]

  /** The fields kept only when the attribute is a list or a string; every
      other field is kept only when the attribute is truthy. */
  const TypeCheckedFields: set<Field> := {DomainName, NameServers, DomainStatus}

  function Attr(attrs: map<string, Value>, name: string): Value {
    if name in attrs then attrs[name] else NoneV
  }

  /** The value a field takes for attribute value `v`: `v` itself when it
      passes the field's test, `'N/A'` otherwise. */
  function FieldValue(field: Field, v: Value): Value {
    if (if field in TypeCheckedFields then IsListOrStr(v) else Truthy(v)) then v else NotAvailable
  }

  /** `get_domain_details(domain)` given the WHOIS client's answer. */
  function DomainDetails(lookup: Lookup): (r: Report)
    ensures lookup.AsText? ==> r == map[Error := Str(StringResultMessage)]
    ensures lookup.Raises? ==> r == map[Error := Str(lookup.message)]
    ensures lookup.Entry? ==> r.Keys == SourceAttribute.Keys
  {
    match lookup
    case AsText(_) => map[Error := Str(StringResultMessage)]
    case Raises(message) => map[Error := Str(message)]
    case Entry(attrs) =>
      map field | field in SourceAttribute :: FieldValue(field, Attr(attrs, SourceAttribute[field]))
  }

  /** The normalised record either reports an error, and nothing else, or
      holds the seven fields and no error; no field is ever `None`, the
      type-checked fields are lists or strings, and every other field is
      truthy. */
  lemma DomainDetailsShape(lookup: Lookup)
    ensures var r := DomainDetails(lookup);
            && (Error in r <==> !lookup.Entry?)
            && (Error in r ==> r.Keys == {Error} && r[Error].Str?)
            && (forall k | k in r :: r[k] != NoneV)
            && (lookup.Entry? ==> forall k | k in TypeCheckedFields :: k in r && IsListOrStr(r[k]))
            && (lookup.Entry? ==> forall k | k in r && k !in TypeCheckedFields :: Truthy(r[k]))
  {
    var r := DomainDetails(lookup);
    if lookup.Entry? {
      forall k | k in r ensures r[k] != NoneV {
        assert k in SourceAttribute.Keys;
      }
    }
  }

  /** A missing attribute (read as `None`) always becomes `'N/A'`. */
  lemma MissingAttributeIsNA(attrs: map<string, Value>, field: Field)
    requires field in SourceAttribute
    requires SourceAttribute[field] !in attrs
    ensures DomainDetails(Entry(attrs))[field] == NotAvailable
  {
  }

  /** Each field's rule: the attribute (`None` when the entry lacks it) is
      kept when it passes its field's test, being a list or a string for
      `Domain Name`, `Name Servers` and `Status` (so an empty string is kept),
      being truthy for the others (so an empty string, `0`, `[]` or `None`
      is not); otherwise the field is `'N/A'`. */
  lemma PassThroughRule(attrs: map<string, Value>, field: Field)
    requires field in SourceAttribute
    ensures var v := Attr(attrs, SourceAttribute[field]);
            var passes := if field in TypeCheckedFields then v.List? || v.Str? else Truthy(v);
            && (passes ==> DomainDetails(Entry(attrs))[field] == v)
            && (!passes ==> DomainDetails(Entry(attrs))[field] == NotAvailable)
  {
  }
}
