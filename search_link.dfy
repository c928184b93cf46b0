/**
 * The search service from both ends: the server's reading of the
 * client's request, and the client's reading of the server's reply.
 */
module SearchLink {
  import opened Common
  import opened Text
  import SearchEngine
  import FileExplorer

  /** The server reads exactly the client's query out of its request. */
  lemma SearchQueryRoundTrip(query: string)
    ensures SearchEngine.Query(FileExplorer.SearchRequest(query)) == Some(query)
  {
    var request := FileExplorer.SearchRequest(query);
    assert request[..6] == "SEARCH";
  }

  /**
   * The client reads the server's names back from its reply when no name
   * holds a line break; an empty result comes back as one empty name,
   * because the reply is then `FILES` and a line break with nothing after.
   */
  lemma SearchResponseRoundTrip(listing: seq<string>, category: map<string, seq<string>>, query: string)
    requires forall x :: x in listing ==> '\n' !in x
    requires forall x :: x in SearchEngine.CategoryMatches(category, query) ==> '\n' !in x
    ensures var names := SearchEngine.Results(listing, category, query);
      FileExplorer.ParseResponse(SearchEngine.GenerateResponse(listing, category, query))
      == if |names| == 0 then [""] else names
  {
    var names := SearchEngine.Results(listing, category, query);
    var response := SearchEngine.GenerateResponse(listing, category, query);
    assert response == "FILES" + "\n" + Join(names, '\n');
    if |names| == 0 {
      assert response == "FILES" + ['\n'] + "";
      SplitAt("FILES", "", '\n');
    } else {
      forall i | 0 <= i < |names| ensures '\n' !in names[i] {
        assert names[i] in names;
      }
      FileExplorer.ParseResponseJoin("FILES", names);
    }
  }
}
