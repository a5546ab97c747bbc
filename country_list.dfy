/**
 * The country select of the Countries tab: filled from the already-parsed country
 * directory, keeping real countries only, then defaulting to India.
 */
module CountryList {
  import opened Wrappers

  /** The `region` object of a directory entry; its `id` may be missing. */
  datatype Region = Region(id: Option<string>)

  /** One directory entry `{name, region}`; `region` may be missing. */
  datatype CountryRecord = CountryRecord(name: string, region: Option<Region>)

  /** An entry is shown when it has a region whose id is not "NA" (the aggregates). */
  predicate Listed(c: CountryRecord) {
    c.region.Some? && c.region.value.id != Some("NA")
  }

  /** Names of the listed entries, in directory order: at most one per entry. */
  function KeptNames(countries: seq<CountryRecord>): (names: seq<string>)
    ensures |names| <= |countries|
  {
    if |countries| == 0 then []
    else
      var last := countries[|countries| - 1];
      KeptNames(countries[..|countries| - 1]) + (if Listed(last) then [last.name] else [])
  }

  /** Filtering distributes over concatenation: the order of the directory is kept. */
  lemma {:induction false} KeptNamesConcat(a: seq<CountryRecord>, b: seq<CountryRecord>)
    ensures KeptNames(a + b) == KeptNames(a) + KeptNames(b)
    decreases |b|
  {
    if |b| == 0 {
      assert a + b == a;
    } else {
      var front := b[..|b| - 1];
      assert (a + b)[..|a + b| - 1] == a + front;
      KeptNamesConcat(a, front);
    }
  }

  /** A single entry contributes its name exactly when it is listed. */
  lemma KeptNamesSingle(c: CountryRecord)
    ensures KeptNames([c]) == if Listed(c) then [c.name] else []
  {
  }

  /** A name is offered exactly when some listed entry carries it. */
  lemma {:induction false} KeptNamesMembership(countries: seq<CountryRecord>, name: string)
    ensures name in KeptNames(countries) <==>
      exists i :: 0 <= i < |countries| && Listed(countries[i]) && countries[i].name == name
    decreases |countries|
  {
    if |countries| > 0 {
      var front := countries[..|countries| - 1];
      KeptNamesMembership(front, name);
      if exists i :: 0 <= i < |countries| && Listed(countries[i]) && countries[i].name == name {
        var i :| 0 <= i < |countries| && Listed(countries[i]) && countries[i].name == name;
        if i < |front| {
          assert front[i] == countries[i];
        }
      }
      if exists i :: 0 <= i < |front| && Listed(front[i]) && front[i].name == name {
        var i :| 0 <= i < |front| && Listed(front[i]) && front[i].name == name;
        assert countries[i] == front[i];
      }
    }
  }

  /**
   * The selection after filling: India when it is offered, otherwise the first
   * option, and nothing for an empty list.
   */
  function DefaultSelection(names: seq<string>): (r: Option<string>)
    ensures r.None? <==> |names| == 0
    ensures r.Some? ==> r.value in names
    ensures "India" in names ==> r == Some("India")
    ensures r.Some? && r.value != "India" ==> r.value == names[0]
  {
    if "India" in names then Some("India")
    else if |names| > 0 then Some(names[0])
    else None
  }

  /** The directory `[_, [India in SAS, World in NA]]` offers India alone and selects it. */
  lemma DirectoryExample()
    ensures KeptNames([CountryRecord("India", Some(Region(Some("SAS")))),
                       CountryRecord("World", Some(Region(Some("NA"))))]) == ["India"]
    ensures DefaultSelection(["India"]) == Some("India")
  {
  }

  /** A single-choice select: its option values, and its value (none when it has no options). */
  class CountrySelect {
    var options: seq<string>
    var value: Option<string>

    /** The select as the page markup defines it; a single-choice select shows its first option. */
    constructor (initial: seq<string>)
      ensures options == initial
      ensures value == if |initial| > 0 then Some(initial[0]) else None
    {
      options := initial;
      value := if |initial| > 0 then Some(initial[0]) else None;
    }

    /** `innerHTML = ''`: no options and so no value. */
    method Clear()
      modifies this
      ensures options == [] && value == None
    {
      options, value := [], None;
    }

    /** The user picks one of the offered names; the options stay as they are. */
    method Pick(name: string)
      requires name in options
      modifies this
      ensures options == old(options) && value == Some(name)
    {
      value := Some(name);
    }

    /** Empties the select, appends one option per listed entry, then picks the default. */
    method Fill(countries: seq<CountryRecord>)
      modifies this
      ensures options == KeptNames(countries)
      ensures value == DefaultSelection(options)
    {
      Clear();
      var i := 0;
      while i < |countries|
        invariant 0 <= i <= |countries|
        invariant options == KeptNames(countries[..i]) && value == None
      {
        assert countries[..i + 1][..i] == countries[..i];
        var country := countries[i];
        if Listed(country) {
          options := options + [country.name];
        }
        i := i + 1;
      }
      assert countries[..|countries|] == countries;
      if "India" in options {
        value := Some("India");
      } else if |options| > 0 {
        value := Some(options[0]);
      }
    }
  }
}
