/** The catalog of vote options and the `indexOf` lookup that turns a label
    into the index used on the wire. The page and the API route each
    hard-code their own copy of the catalog. */
module VoteCatalog {

  /** The catalog as the voting page declares it. */
  const ClientOptions: seq<string> := ["Option A", "Option B", "Option C", "Option D"]

  /** The catalog as the feedback API route declares it. */
  const ServerOptions: seq<string> := ["Option A", "Option B", "Option C", "Option D"]

  /** No label occurs twice. */
  predicate Distinct(s: seq<string>)
  {
    forall i, j :: 0 <= i < j < |s| ==> s[i] != s[j]
  }

  /** JavaScript's `Array.prototype.indexOf` under strict equality: the
      position of the first occurrence of `x` in `s`, or -1 when there is none. */
  function IndexOf(s: seq<string>, x: string): (r: int)
    ensures -1 <= r < |s|
    ensures r == -1 <==> x !in s
    ensures 0 <= r ==> s[r] == x && x !in s[..r]
  {
    if |s| == 0 then -1
    else if s[0] == x then 0
    else
      var k := IndexOf(s[1..], x);
      if k == -1 then -1 else k + 1
  }

  /** In a catalog without duplicates, looking up the label at position `i`
      gives back `i`. */
  lemma IndexOfDistinct(s: seq<string>, i: int)
    requires Distinct(s)
    requires 0 <= i < |s|
    ensures IndexOf(s, s[i]) == i
  {
  }

  /** Both copies of the catalog are the same list of four distinct labels. */
  lemma CatalogsAgree()
    ensures ClientOptions == ServerOptions
    ensures |ClientOptions| == 4
    ensures Distinct(ClientOptions)
  {
  }

  /** The round trip between the two files: the index the page encodes for a
      catalog label is the index the route recovers from the same label, and
      it names that label in both catalogs. */
  lemma ClientServerRoundTrip(vote: string)
    requires vote in ClientOptions
    ensures 0 <= IndexOf(ClientOptions, vote) < 4
    ensures IndexOf(ServerOptions, vote) == IndexOf(ClientOptions, vote)
    ensures ServerOptions[IndexOf(ServerOptions, vote)] == vote
  {
  }

  /** Every position of the page's catalog survives the trip through a label
      and the route's lookup. */
  lemma IndexRoundTrip(i: int)
    requires 0 <= i < |ClientOptions|
    ensures IndexOf(ServerOptions, ClientOptions[i]) == i
  {
  }
}
