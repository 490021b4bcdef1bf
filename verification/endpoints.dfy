/**
 * The endpoint store: the saved list of remote Kismet servers and the configuration file that
 * holds it. The file is abstracted to what reading it yields; JSON encoding is not modelled.
 */
module Endpoints {
  import opened Strings

  /** One saved endpoint: the five fields `name`, `url`, `type`, `user` and `pass` of a record. */
  datatype Endpoint = Endpoint(name: string, url: string, kind: string, user: string, password: string)

  /** What reading the configuration file yields. */
  datatype StoredFile =
    | Missing                          // the file does not exist (FileNotFoundError)
    | Malformed                        // the file is readable text but not JSON (JSONDecodeError)
    | Saved(endpoints: seq<Endpoint>)  // the list last written by `SaveEndpoints`

  /** `load_endpoints`: the saved list, or the empty list when the file is missing or corrupt. */
  function LoadEndpoints(file: StoredFile): (endpoints: seq<Endpoint>)
    ensures file.Saved? ==> endpoints == file.endpoints
    ensures file.Missing? || file.Malformed? ==> endpoints == []
  {
    match file
    case Saved(list) => list
    case _ => []
  }

  /** `save_endpoints`: the file now holds exactly the given list. */
  function SaveEndpoints(endpoints: seq<Endpoint>): (file: StoredFile)
    ensures file.Saved?
  {
    Saved(endpoints)
  }

  /** Loading what was just saved gives back the same list, in the same order. */
  lemma LoadAfterSave(endpoints: seq<Endpoint>)
    ensures LoadEndpoints(SaveEndpoints(endpoints)) == endpoints
  {
  }

  /** The record `perform_add_endpoint` appends: every field is the stripped form input. */
  function NewEndpoint(name: string, url: string, kind: string, user: string, password: string): Endpoint
  {
    Endpoint(Strip(name), Strip(url), Strip(kind), Strip(user), Strip(password))
  }

  /** A stored field never starts or ends with whitespace. */
  predicate Trimmed(s: string) {
    s == [] || (!IsSpace(s[0]) && !IsSpace(s[|s| - 1]))
  }

  /**
   * A new record's fields carry no surrounding whitespace, and entering a record's own fields
   * again produces the same record.
   */
  lemma NewEndpointTrimmed(name: string, url: string, kind: string, user: string, password: string)
    ensures var e := NewEndpoint(name, url, kind, user, password);
      && Trimmed(e.name) && Trimmed(e.url) && Trimmed(e.kind) && Trimmed(e.user) && Trimmed(e.password)
      && NewEndpoint(e.name, e.url, e.kind, e.user, e.password) == e
  {
    StrippedField(name);
    StrippedField(url);
    StrippedField(kind);
    StrippedField(user);
    StrippedField(password);
  }

  /** A stripped field is trimmed, and stripping it again changes nothing. */
  lemma StrippedField(s: string)
    ensures Trimmed(Strip(s)) && Strip(Strip(s)) == Strip(s)
  {
  }

  /**
   * `list.pop(idx)` seen from the list: the entry at `idx` is gone and every other entry is
   * kept, in its original relative order.
   */
  function RemoveAt(endpoints: seq<Endpoint>, idx: nat): (rest: seq<Endpoint>)
    requires idx < |endpoints|
    ensures |rest| == |endpoints| - 1
    ensures forall j :: 0 <= j < idx ==> rest[j] == endpoints[j]
    ensures forall j :: idx <= j < |rest| ==> rest[j] == endpoints[j + 1]
  {
    endpoints[..idx] + endpoints[idx + 1..]
  }

  /** Removing an entry loses that entry and nothing else: together they are the old list's entries. */
  lemma RemoveAtLosesOnlyThatEntry(endpoints: seq<Endpoint>, idx: nat)
    requires idx < |endpoints|
    ensures multiset(RemoveAt(endpoints, idx)) + multiset{endpoints[idx]} == multiset(endpoints)
  {
    assert endpoints == endpoints[..idx] + [endpoints[idx]] + endpoints[idx + 1..];
  }
}
