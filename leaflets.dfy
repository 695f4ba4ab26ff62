/**
 * The leaflet record (`Leaflet` in main.py): six string fields, a dictionary view
 * of them and the accessors.  The constructor in main.py reads the wall clock for
 * `parsed_time`; here the timestamp is a constructor argument.
 */
module Leaflets {
  import opened Wrappers

  /** One entry of a serialised record. */
  datatype Field = Field(name: string, value: string)

  /** A serialised record: an insertion-ordered dictionary from field name to string. */
  type Dict = seq<Field>

  /** The keys of a serialised record, in the order `to_dict` inserts them. */
  const FieldNames: seq<string> := ["title", "thumbnail", "shop_name", "valid_from", "valid_to", "parsed_time"]

  /** No key of a serialised record is repeated. */
  lemma FieldNamesDistinct()
    ensures forall i, j | 0 <= i < j < |FieldNames| :: FieldNames[i] != FieldNames[j]
  {
    assert "title" != "thumbnail" && "title" != "shop_name" && "title" != "valid_from";
    assert "title" != "valid_to" && "title" != "parsed_time";
    assert "thumbnail" != "shop_name" && "thumbnail" != "valid_from";
    assert "thumbnail" != "valid_to" && "thumbnail" != "parsed_time";
    assert "shop_name" != "valid_from" && "shop_name" != "valid_to" && "shop_name" != "parsed_time";
    assert "valid_from" != "valid_to" && "valid_from" != "parsed_time";
    assert "valid_to" != "parsed_time";
  }

  /** The keys of a dictionary, in order. */
  function Names(d: Dict): (ns: seq<string>)
    ensures |ns| == |d| && forall i | 0 <= i < |d| :: ns[i] == d[i].name
  {
    seq(|d|, i requires 0 <= i < |d| => d[i].name)
  }

  /** The value stored under `name`, as a dictionary lookup finds it. */
  function Lookup(d: Dict, name: string): (r: Option<string>)
  {
    if d == [] then None
    else if d[0].name == name then Some(d[0].value)
    else Lookup(d[1..], name)
  }

  /** A lookup finds the first entry that carries the name. */
  lemma {:induction false} LookupFirst(d: Dict, name: string, i: nat)
    requires i < |d| && d[i].name == name
    requires forall j | 0 <= j < i :: d[j].name != name
    ensures Lookup(d, name) == Some(d[i].value)
    decreases i
  {
    if i > 0 {
      LookupFirst(d[1..], name, i - 1);
    }
  }

  /** The content of one leaflet. */
  datatype Record = Record(
    title: string,
    thumbnail: string,
    shopName: string,
    validFrom: string,
    validTo: string,
    parsedTime: string)

  /** The dictionary `to_dict` builds from a record's content: exactly the six keys, each holding its field. */
  function AsDict(r: Record): (d: Dict)
    ensures Names(d) == FieldNames
    ensures Lookup(d, "title") == Some(r.title)
    ensures Lookup(d, "thumbnail") == Some(r.thumbnail)
    ensures Lookup(d, "shop_name") == Some(r.shopName)
    ensures Lookup(d, "valid_from") == Some(r.validFrom)
    ensures Lookup(d, "valid_to") == Some(r.validTo)
    ensures Lookup(d, "parsed_time") == Some(r.parsedTime)
  {
    var d := [Field("title", r.title),
              Field("thumbnail", r.thumbnail),
              Field("shop_name", r.shopName),
              Field("valid_from", r.validFrom),
              Field("valid_to", r.validTo),
              Field("parsed_time", r.parsedTime)];
    FieldNamesDistinct();
    LookupFirst(d, "title", 0);
    LookupFirst(d, "thumbnail", 1);
    LookupFirst(d, "shop_name", 2);
    LookupFirst(d, "valid_from", 3);
    LookupFirst(d, "valid_to", 4);
    LookupFirst(d, "parsed_time", 5);
    d
  }

  /** Reads a record back from a dictionary, as a consumer of the saved document would. */
  function FromDict(d: Dict): Option<Record>
  {
    match (Lookup(d, "title"), Lookup(d, "thumbnail"), Lookup(d, "shop_name"),
           Lookup(d, "valid_from"), Lookup(d, "valid_to"), Lookup(d, "parsed_time"))
    case (Some(t), Some(th), Some(sn), Some(vf), Some(vt), Some(pt)) => Some(Record(t, th, sn, vf, vt, pt))
    case _ => None
  }

  /** Serialising a record and reading it back gives the same record. */
  lemma DictRoundTrip(r: Record)
    ensures FromDict(AsDict(r)) == Some(r)
  {
  }

  /** Records with the same dictionary are the same record. */
  lemma AsDictInjective(r1: Record, r2: Record)
    requires AsDict(r1) == AsDict(r2)
    ensures r1 == r2
  {
    DictRoundTrip(r1);
    DictRoundTrip(r2);
  }

  /** A leaflet object.  Its fields are public and mutable, as in main.py. */
  class Leaflet {
    var title: string
    var thumbnail: string
    var shopName: string
    var validFrom: string
    var validTo: string
    var parsedTime: string

    /** The content of the object. */
    function Value(): Record
      reads this
    {
      Record(title, thumbnail, shopName, validFrom, validTo, parsedTime)
    }

    /** Stores the five arguments verbatim; `parsedTime` is the clock reading taken at construction. */
    constructor (title: string, thumbnail: string, shopName: string, validFrom: string, validTo: string, parsedTime: string)
      ensures Value() == Record(title, thumbnail, shopName, validFrom, validTo, parsedTime)
    {
      this.title := title;
      this.thumbnail := thumbnail;
      this.shopName := shopName;
      this.validFrom := validFrom;
      this.validTo := validTo;
      this.parsedTime := parsedTime;
    }

    /** `to_dict`. */
    function ToDict(): (d: Dict)
      reads this
      ensures d == AsDict(Value())
      ensures FromDict(d) == Some(Value())
    {
      DictRoundTrip(Value());
      AsDict(Value())
    }

    method GetTitle() returns (t: string)
      ensures t == Value().title
    {
      t := title;
    }

    method GetThumbnail() returns (t: string)
      ensures t == Value().thumbnail
    {
      t := thumbnail;
    }

    method GetShopName() returns (t: string)
      ensures t == Value().shopName
    {
      t := shopName;
    }

    method GetValidFrom() returns (t: string)
      ensures t == Value().validFrom
    {
      t := validFrom;
    }

    method GetValidTo() returns (t: string)
      ensures t == Value().validTo
    {
      t := validTo;
    }

    method GetParsedTime() returns (t: string)
      ensures t == Value().parsedTime
    {
      t := parsedTime;
    }

    method SetTitle(title: string)
      modifies this
      ensures Value() == old(Value()).(title := title)
    {
      this.title := title;
    }

    method SetThumbnail(thumbnail: string)
      modifies this
      ensures Value() == old(Value()).(thumbnail := thumbnail)
    {
      this.thumbnail := thumbnail;
    }

    method SetShopName(shopName: string)
      modifies this
      ensures Value() == old(Value()).(shopName := shopName)
    {
      this.shopName := shopName;
    }

    method SetValidFrom(validFrom: string)
      modifies this
      ensures Value() == old(Value()).(validFrom := validFrom)
    {
      this.validFrom := validFrom;
    }

    method SetValidTo(validTo: string)
      modifies this
      ensures Value() == old(Value()).(validTo := validTo)
    {
      this.validTo := validTo;
    }
  }

  /** The contents of a list of leaflet objects, in order. */
  function Values(ls: seq<Leaflet>): (rs: seq<Record>)
    reads set l | l in ls
    ensures |rs| == |ls| && forall i | 0 <= i < |ls| :: rs[i] == ls[i].Value()
  {
    if ls == [] then [] else [ls[0].Value()] + Values(ls[1..])
  }

  /** The contents of two concatenated lists are the concatenated contents. */
  lemma ValuesAppend(a: seq<Leaflet>, b: seq<Leaflet>)
    ensures Values(a + b) == Values(a) + Values(b)
  {
  }

  /** The contents of untouched objects stay as they were. */
  twostate lemma ValuesUnchanged(ls: seq<Leaflet>)
    requires unchanged(set l | l in ls)
    ensures Values(ls) == old(Values(ls))
  {
  }

  /** Adding one object adds its content. */
  lemma ValuesPush(ls: seq<Leaflet>, l: Leaflet)
    ensures Values(ls + [l]) == Values(ls) + [l.Value()]
  {
    ValuesAppend(ls, [l]);
  }
}
