/** The geocoding request of the newer generation (src/api/geocoding.rs).
    `LocationInfo`, its `to_string`, `eq` and `ne` are those of module `Geo`. */
module Geocoding {
  import Query

  /** The endpoint of the direct-geocoding request. */
  const API_URL: string := "http://api.openweathermap.org/geo/1.0/direct?"

  /** At most this many entries are asked for. */
  const LIMIT: string := "5"

  /** The parameters `Location::get` passes: the place, the limit, the key. */
  function Params(location: string, appid: string): (items: seq<Query.Pair>)
    ensures |items| == 3
    ensures items[0] == ("q", location) && items[1] == ("limit", LIMIT) && items[2] == ("appid", appid)
  {
    [("q", location), ("limit", LIMIT), ("appid", appid)]
  }

  /** The URL the request goes to. */
  lemma RequestUrl(location: string, appid: string)
    ensures Query.Url(API_URL, Params(location, appid))
            == API_URL + "q=" + location + "&limit=5&appid=" + appid
  {
    var items := Params(location, appid);
    assert items[1..][1..] == [("appid", appid)];
    assert Query.Joined(items[1..]) == "limit=5" + "&" + "appid=" + appid;
    assert Query.Joined(items) == "q=" + location + "&" + Query.Joined(items[1..]);
  }
}
