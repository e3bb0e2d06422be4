/** The job record and the location classifier of geo_job_sentinel/models.py. */
module Models {
  import opened Text

  datatype Option<T> = None | Some(value: T)

  /** A raw search result as the provider returns it: string keys to string values. */
  type RawItem = map<string, string>

  datatype LocationType = Remote | Hybrid | Onsite | Unknown

  /** One normalised job lead. `discoveredAt` holds the ISO text of the clock
      reading taken when the record was made. */
  datatype JobPosting = JobPosting(
    id: string,
    title: string,
    company: string,
    location: string,
    source: string,
    url: string,
    descriptionSnippet: string,
    category: string,
    isNewCompany: bool,
    locationType: LocationType,
    discoveredAt: string,
    rawSource: Option<RawItem>)

  const DefaultCategory: string := "General GIS"

  /** The record built with only its required fields given: every field with a
      default takes that default. */
  function NewJobPosting(id: string, title: string, company: string, location: string,
                         source: string, url: string, descriptionSnippet: string,
                         now: string): (j: JobPosting)
    ensures j.category == "General GIS" && !j.isNewCompany
    ensures j.locationType == Unknown && j.rawSource == None && j.discoveredAt == now
    ensures j.id == id && j.title == title && j.company == company && j.location == location
    ensures j.source == source && j.url == url && j.descriptionSnippet == descriptionSnippet
  {
    JobPosting(id, title, company, location, source, url, descriptionSnippet,
               DefaultCategory, false, Unknown, now, None)
  }

  const RemoteMarkers: seq<string> := ["remote", "work from home", "wfh", "anywhere", "distributed"]
  const HybridMarkers: seq<string> := ["hybrid", "flexible", "part-remote", "part time remote"]
  const OnsiteMarkers: seq<string> := ["onsite", "on-site", "on site", "office-based"]

  /** The text the markers are searched in: the three inputs joined by single
      spaces, then lower-cased (JoinedTextIsJoin shows it is the space-join). */
  function JoinedText(title: string, description: string, location: string): string
  {
    Lower(title + " " + description + " " + location)
  }

  lemma JoinedTextIsJoin(title: string, description: string, location: string)
    ensures JoinedText(title, description, location) == Lower(Join(" ", [title, description, location]))
  {
    assert [title, description, location][1..] == [description, location];
    assert [description, location][1..] == [location];
    assert Join(" ", [description, location]) == description + " " + location;
  }

  lemma JoinedTextParts(title: string, description: string, location: string)
    ensures JoinedText(title, description, location)
         == Lower(title) + " " + Lower(description) + " " + Lower(location)
  {
    LowerAppend(title + " " + description + " ", location);
    LowerAppend(title + " " + description, " ");
    LowerAppend(title + " ", description);
    LowerAppend(title, " ");
  }

  predicate HasMarker(text: string, markers: seq<string>)
  {
    exists m :: m in markers && Contains(text, m)
  }

  /** The decision list of `classify_location_type`, in its order. */
  function ClassifyLocationType(title: string, description: string, location: string): (r: LocationType)
    ensures (r == Hybrid) <==> HasMarker(JoinedText(title, description, location), HybridMarkers)
    ensures r == Remote ==> HasMarker(JoinedText(title, description, location), RemoteMarkers)
  {
    var text := JoinedText(title, description, location);
    if HasMarker(text, RemoteMarkers) then
      if HasMarker(text, HybridMarkers) then Hybrid else Remote
    else if HasMarker(text, HybridMarkers) then Hybrid
    else if HasMarker(text, OnsiteMarkers) then Onsite
    else if Contains(location, ",") && !Contains(Lower(location), "remote") then Onsite
    else Unknown
  }

  /** Each outcome of the classifier in closed form. A hybrid marker wins over
      everything; a remote marker wins over the onsite markers and the comma;
      the comma rule needs no check of its own for "remote". */
  lemma ClassifyOutcomes(title: string, description: string, location: string)
    ensures var text := JoinedText(title, description, location);
      var r := ClassifyLocationType(title, description, location);
      && (r == Hybrid <==> HasMarker(text, HybridMarkers))
      && (r == Remote <==> HasMarker(text, RemoteMarkers) && !HasMarker(text, HybridMarkers))
      && (r == Onsite <==> !HasMarker(text, RemoteMarkers) && !HasMarker(text, HybridMarkers)
                           && (HasMarker(text, OnsiteMarkers) || Contains(location, ",")))
      && (r == Unknown <==> !HasMarker(text, RemoteMarkers) && !HasMarker(text, HybridMarkers)
                            && !HasMarker(text, OnsiteMarkers) && !Contains(location, ","))
  {
    if !HasMarker(JoinedText(title, description, location), RemoteMarkers) {
      LocationRemoteCheckRedundant(title, description, location);
    }
  }

  /** Whatever occurs in the lower-cased location occurs in the searched text. */
  lemma LocationInJoinedText(title: string, description: string, location: string)
    ensures forall t :: Contains(Lower(location), t) ==> Contains(JoinedText(title, description, location), t)
  {
    JoinedTextParts(title, description, location);
    var head := Lower(title) + " " + Lower(description) + " ";
    assert head + Lower(location) + "" == JoinedText(title, description, location);
    forall t | Contains(Lower(location), t)
      ensures Contains(JoinedText(title, description, location), t)
    {
      ContainsInside(head, Lower(location), "", t);
    }
  }

  /** The `"remote" not in location.lower()` test of the comma rule never fails
      once reached: the lower-cased location is the tail of the searched text,
      and "remote" is a remote marker already ruled out. */
  lemma LocationRemoteCheckRedundant(title: string, description: string, location: string)
    requires !HasMarker(JoinedText(title, description, location), RemoteMarkers)
    ensures !Contains(Lower(location), "remote")
  {
    LocationInJoinedText(title, description, location);
    assert "remote" in RemoteMarkers;
  }

  /** A marker can straddle the joining space: a title ending in "work" and a
      description starting with "from home" spell the remote marker
      "work from home", so the posting is never Onsite or Unknown. */
  lemma MarkerAcrossFields(title: string, description: string, location: string)
    requires |title| >= 4 && Lower(title)[|title| - 4..] == "work"
    requires "from home" <= Lower(description)
    ensures ClassifyLocationType(title, description, location) in {Remote, Hybrid}
  {
    var text := JoinedText(title, description, location);
    JoinedTextParts(title, description, location);
    var i := |title| - 4;
    assert text[i..] == Lower(title)[i..] + " " + Lower(description) + " " + Lower(location);
    assert text[i..][..14] == "work from home";
    ContainsAt(text, "work from home", i);
    assert "work from home" in RemoteMarkers;
    ClassifyOutcomes(title, description, location);
  }

  /** A character that occurs in a marker but not in the text rules that marker out. */
  lemma MissingChar(text: string, m: string, k: nat)
    requires k < |m| && m[k] !in text
    ensures !Contains(text, m)
  {
    if Contains(text, m) {
      ContainsChar(text, m, k);
    }
  }

  /** Example: both a remote and a hybrid marker give Hybrid. */
  lemma ExampleRemoteAndHybrid()
    ensures ClassifyLocationType("Remote GIS Analyst", "hybrid flexible schedule", "") == Hybrid
  {
    RemoteAndHybridMarkers();
    ClassifyOutcomes("Remote GIS Analyst", "hybrid flexible schedule", "");
  }

  lemma RemoteAndHybridMarkers()
    ensures HasMarker(JoinedText("Remote GIS Analyst", "hybrid flexible schedule", ""), HybridMarkers)
  {
    var t := JoinedText("Remote GIS Analyst", "hybrid flexible schedule", "");
    JoinedTextParts("Remote GIS Analyst", "hybrid flexible schedule", "");
    assert Lower("Remote GIS Analyst") == "remote gis analyst";
    assert Lower("hybrid flexible schedule") == "hybrid flexible schedule";
    RemoteAndHybridText(t);
  }

  lemma RemoteAndHybridText(t: string)
    requires t == "remote gis analyst" + " " + "hybrid flexible schedule" + " " + ""
    ensures HasMarker(t, HybridMarkers)
  {
    assert t[19..25] == "hybrid";
    ContainsAt(t, "hybrid", 19);
    assert "hybrid" in HybridMarkers;
  }

  /** Example: a remote marker alone gives Remote. */
  lemma ExampleRemote()
    ensures ClassifyLocationType("Remote Analyst", "", "") == Remote
  {
    RemoteAnalystMarkers();
    ClassifyOutcomes("Remote Analyst", "", "");
  }

  lemma RemoteAnalystMarkers()
    ensures var t := JoinedText("Remote Analyst", "", "");
      HasMarker(t, RemoteMarkers) && !HasMarker(t, HybridMarkers)
  {
    var t := JoinedText("Remote Analyst", "", "");
    JoinedTextParts("Remote Analyst", "", "");
    assert Lower("Remote Analyst") == "remote analyst";
    assert t == "remote analyst  ";
    assert t[..6] == "remote";
    ContainsAt(t, "remote", 0);
    assert "remote" in RemoteMarkers;
    RemoteAnalystText(t);
  }

  lemma RemoteAnalystText(t: string)
    requires t == "remote analyst  "
    ensures !HasMarker(t, HybridMarkers)
  {
    NoMarkersIn(t, HybridMarkers, [0, 0, 0, 0]);
  }

  /** Example: no marker and a comma in the location give Onsite. */
  lemma ExampleCityState()
    ensures ClassifyLocationType("", "", "Chicago, IL") == Onsite
  {
    CityStateMarkers();
    ClassifyOutcomes("", "", "Chicago, IL");
    assert "Chicago, IL"[7..] == ", IL";
    ContainsAt("Chicago, IL", ",", 7);
  }

  lemma CityStateMarkers()
    ensures var t := JoinedText("", "", "Chicago, IL");
      !HasMarker(t, RemoteMarkers) && !HasMarker(t, HybridMarkers)
  {
    var t := JoinedText("", "", "Chicago, IL");
    JoinedTextParts("", "", "Chicago, IL");
    assert Lower("Chicago, IL") == "chicago, il";
    assert t == "  chicago, il";
    CityStateText(t);
  }

  lemma CityStateText(t: string)
    requires t == "  chicago, il"
    ensures !HasMarker(t, RemoteMarkers) && !HasMarker(t, HybridMarkers)
  {
    NoMarkersIn(t, RemoteMarkers, [0, 0, 0, 1, 0]);
    NoMarkersIn(t, HybridMarkers, [1, 0, 0, 0]);
  }

  /** Example: no marker and no comma give Unknown. */
  lemma ExampleNoClue()
    ensures ClassifyLocationType("", "", "Somewhere") == Unknown
  {
    SomewhereMarkers();
    ClassifyOutcomes("", "", "Somewhere");
    NoComma("Somewhere");
  }

  lemma SomewhereMarkers()
    ensures var t := JoinedText("", "", "Somewhere");
      !HasMarker(t, RemoteMarkers) && !HasMarker(t, HybridMarkers) && !HasMarker(t, OnsiteMarkers)
  {
    var t := JoinedText("", "", "Somewhere");
    JoinedTextParts("", "", "Somewhere");
    assert Lower("Somewhere") == "somewhere";
    assert t == "  somewhere";
    SomewhereText(t);
  }

  lemma SomewhereText(t: string)
    requires t == "  somewhere"
    ensures !HasMarker(t, RemoteMarkers) && !HasMarker(t, HybridMarkers) && !HasMarker(t, OnsiteMarkers)
  {
    NoMarkersIn(t, RemoteMarkers, [4, 3, 1, 0, 0]);
    NoMarkersIn(t, HybridMarkers, [1, 0, 0, 0]);
    NoMarkersIn(t, OnsiteMarkers, [1, 1, 1, 1]);
  }

  /** No marker occurs when each marker has, at the position `missing` names,
      a character that is absent from the text. */
  lemma NoMarkersIn(text: string, markers: seq<string>, missing: seq<nat>)
    requires |missing| == |markers|
    requires forall i :: 0 <= i < |markers| ==> missing[i] < |markers[i]| && markers[i][missing[i]] !in text
    ensures !HasMarker(text, markers)
  {
    forall i | 0 <= i < |markers|
      ensures !Contains(text, markers[i])
    {
      MissingChar(text, markers[i], missing[i]);
    }
  }

  lemma NoComma(s: string)
    requires ',' !in s
    ensures !Contains(s, ",")
  {
    MissingChar(s, ",", 0);
  }
}
