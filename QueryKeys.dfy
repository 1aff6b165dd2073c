/** The query keys the application's pages and hooks use, side by side;
    they all live in the one `QueryClient` the application provides.
    react-query's `invalidateQueries` and `cancelQueries` act on every key
    that starts with the key they are given; the cache stand-in acts on that
    key alone. The two agree because no key of the application starts with
    another. */
module QueryKeys {
  import opened QueryCache
  import SuperHeroesData
  import InfiniteQueries
  import SuperHeroData

  /** The key of the friends query of `ParalleQueriesPage`. */
  const FriendsKey: QueryKey := ["friends"]

  /** The key `["user", email]` of the user query of `DependentQueriesPage`. */
  function UserKey(email: string): (key: QueryKey)
    ensures |key| == 2 && key[0] == "user" && key[1] == email
  {
    ["user", email]
  }

  /** The key `["channel", channelId]` of the channel query of
      `DependentQueriesPage`. */
  function ChannelKey(channelId: string): (key: QueryKey)
    ensures |key| == 2 && key[0] == "channel" && key[1] == channelId
  {
    ["channel", channelId]
  }

  /** `a` is a shorter key that `b` starts with. */
  predicate IsProperPrefix(a: QueryKey, b: QueryKey)
  {
    |a| < |b| && b[..|a|] == a
  }

  /** The keys of the application: the hero list, the colours, the
      friends, two hero details, a user and a channel. */
  function AppKeys(heroId: string, otherId: string, email: string, channelId: string): seq<QueryKey>
  {
    [SuperHeroesData.SuperHeroesKey, InfiniteQueries.ColorsKey, FriendsKey,
     SuperHeroData.SuperHeroKey(heroId), SuperHeroData.SuperHeroKey(otherId),
     UserKey(email), ChannelKey(channelId)]
  }

  /** No key of the application is a proper prefix of another, so matching
      by prefix selects only the key itself. The one-element keys all
      differ from the first elements of the two-element keys. */
  lemma NoKeyExtendsAnother(heroId: string, otherId: string, email: string, channelId: string)
    ensures var keys := AppKeys(heroId, otherId, email, channelId);
            forall i, j :: 0 <= i < |keys| && 0 <= j < |keys| ==> !IsProperPrefix(keys[i], keys[j])
  {
    var keys := AppKeys(heroId, otherId, email, channelId);
    forall i, j | 0 <= i < |keys| && 0 <= j < |keys|
      ensures !IsProperPrefix(keys[i], keys[j])
    {
      assert "super-heroes" != "super-hero" by { assert |"super-heroes"| != |"super-hero"|; }
      assert "super-heroes" != "user" by { assert "super-heroes"[0] != "user"[0]; }
      assert "super-heroes" != "channel" by { assert "super-heroes"[0] != "channel"[0]; }
      assert "colors" != "super-hero" by { assert "colors"[0] != "super-hero"[0]; }
      assert "colors" != "user" by { assert "colors"[0] != "user"[0]; }
      assert "colors" != "channel" by { assert "colors"[1] != "channel"[1]; }
      assert "friends" != "super-hero" by { assert "friends"[0] != "super-hero"[0]; }
      assert "friends" != "user" by { assert "friends"[0] != "user"[0]; }
      assert "friends" != "channel" by { assert "friends"[0] != "channel"[0]; }
    }
  }
}
