/**
 The social routes of app.py: follow, unfollow, favorite, unfavorite and adding a
 track to a playlist. The `follows`, `favorites` and `playlist_tracks` tables carry
 no uniqueness constraint on their pairs, so each is a sequence of rows in which a
 duplicate could appear; only the routes' own checks keep them duplicate-free, and
 the invariants below are proved from those checks alone.

 `filter_by(...).first()` is read as the earliest matching row.
 */
module Social {
  import opened Base
  import opened Models
  import opened Tables

  /** The JSON body or abort status a route answers with. */
  datatype Reply =
    | Ok                       // {"status": "ok"}
    | OkCount(count: nat)      // {"status": "ok", "followers_count": n}
    | AlreadyFollowing
    | AlreadyFavorited
    | CannotFollowSelf         // {"error": "cannot follow yourself"}, status 400
    | NotFound                 // get_or_404
    | Forbidden                // abort(403)

  datatype Outcome<T> = Outcome(reply: Reply, rows: seq<T>)

  // ---------------------------------------------------------------- follows

  /** `user.followers.count()`: the rows whose followed column is `user`. */
  function Followers(rows: seq<FollowRow>, user: nat): nat
  {
    if |rows| == 0 then 0
    else (if rows[0].followed == user then 1 else 0) + Followers(rows[1..], user)
  }

  /** Appending one row raises a count by one exactly when the row counts. */
  lemma {:induction false} FollowersAppend(rows: seq<FollowRow>, row: FollowRow, user: nat)
    ensures Followers(rows + [row], user) == Followers(rows, user) + (if row.followed == user then 1 else 0)
  {
    if |rows| == 0 {
      assert [row][1..] == [];
    } else {
      assert (rows + [row])[1..] == rows[1..] + [row];
      FollowersAppend(rows[1..], row, user);
    }
  }

  /** Removing one row lowers a count by one exactly when the row counts. */
  lemma {:induction false} FollowersRemoveFirst(rows: seq<FollowRow>, row: FollowRow, user: nat)
    requires row in rows
    ensures Followers(RemoveFirst(rows, row), user) + (if row.followed == user then 1 else 0) == Followers(rows, user)
  {
    if rows[0] != row {
      assert row in rows[1..] by { assert rows == [rows[0]] + rows[1..]; }
      FollowersRemoveFirst(rows[1..], row, user);
      var r := RemoveFirst(rows, row);
      assert r == [rows[0]] + RemoveFirst(rows[1..], row);
      assert r[1..] == RemoveFirst(rows[1..], row);
    }
  }

  /** Every follow edge joins two different users and appears once. */
  predicate ValidFollows(rows: seq<FollowRow>)
  {
    NoDuplicates(rows) && forall i :: 0 <= i < |rows| ==> rows[i].follower != rows[i].followed
  }

  /**
   `follow(user_id)` by the signed-in user `me`: 404 for an unknown user, 400 for
   oneself, "already_following" when the edge exists; otherwise the edge is added
   and the new follower count is reported.
   */
  function Follow(users: set<nat>, rows: seq<FollowRow>, me: nat, target: nat): (r: Outcome<FollowRow>)
    ensures target !in users ==> r == Outcome(NotFound, rows)
    ensures r.reply == CannotFollowSelf <==> target in users && target == me
    ensures r.reply == AlreadyFollowing <==> target in users && target != me && FollowRow(me, target) in rows
    ensures r.reply.OkCount? <==> target in users && target != me && FollowRow(me, target) !in rows
    ensures !r.reply.OkCount? ==> r.rows == rows
    ensures r.reply.OkCount? ==>
      && FollowRow(me, target) !in rows
      && r.rows == rows + [FollowRow(me, target)]
      && r.reply.count == Followers(rows, target) + 1
  {
    if target !in users then Outcome(NotFound, rows)
    else if target == me then Outcome(CannotFollowSelf, rows)
    else if FollowRow(me, target) in rows then Outcome(AlreadyFollowing, rows)
    else
      var rows' := rows + [FollowRow(me, target)];
      FollowersAppend(rows, FollowRow(me, target), target);
      Outcome(OkCount(Followers(rows', target)), rows')
  }

  /**
   `unfollow(user_id)`: 404 for an unknown user; otherwise the first matching edge,
   if any, is deleted, and the answer is always "ok" with the follower count.
   */
  function Unfollow(users: set<nat>, rows: seq<FollowRow>, me: nat, target: nat): (r: Outcome<FollowRow>)
    ensures target !in users ==> r == Outcome(NotFound, rows)
    ensures target in users ==> r.reply.OkCount? && r.reply.count == Followers(r.rows, target)
    ensures target in users ==> multiset(r.rows) == multiset(rows) - multiset{FollowRow(me, target)}
    ensures FollowRow(me, target) !in rows ==> r.rows == rows
    ensures target in users && FollowRow(me, target) in rows ==> r.reply.count + 1 == Followers(rows, target)
  {
    if target !in users then Outcome(NotFound, rows)
    else
      var edge := FollowRow(me, target);
      var rows' := RemoveFirst(rows, edge);
      var count := if edge in rows then FollowersRemoveFirst(rows, edge, target); Followers(rows', target)
                   else Followers(rows', target);
      Outcome(OkCount(count), rows')
  }

  /** Following never creates a self edge or a duplicate edge. */
  lemma FollowPreservesValid(users: set<nat>, rows: seq<FollowRow>, me: nat, target: nat)
    requires ValidFollows(rows)
    ensures ValidFollows(Follow(users, rows, me, target).rows)
  {
    var r := Follow(users, rows, me, target);
    if r.reply.OkCount? {
      AppendFresh(rows, FollowRow(me, target));
      forall i | 0 <= i < |r.rows| ensures r.rows[i].follower != r.rows[i].followed {
        if i < |rows| { assert r.rows[i] == rows[i]; }
      }
    }
  }

  lemma UnfollowPreservesValid(users: set<nat>, rows: seq<FollowRow>, me: nat, target: nat)
    requires ValidFollows(rows)
    ensures ValidFollows(Unfollow(users, rows, me, target).rows)
    ensures target in users ==> FollowRow(me, target) !in Unfollow(users, rows, me, target).rows
  {
    var r := Unfollow(users, rows, me, target);
    if target in users {
      RemoveFirstRemovesAll(rows, FollowRow(me, target));
      forall i | 0 <= i < |r.rows| ensures r.rows[i].follower != r.rows[i].followed {
        assert r.rows[i] in multiset(r.rows);
        assert r.rows[i] in rows;
      }
    }
  }

  /** A second identical follow answers "already_following" and adds nothing. */
  lemma FollowIdempotent(users: set<nat>, rows: seq<FollowRow>, me: nat, target: nat)
    requires Follow(users, rows, me, target).reply.OkCount?
    ensures var once := Follow(users, rows, me, target).rows;
      Follow(users, once, me, target) == Outcome(AlreadyFollowing, once)
  {
  }

  /** Unfollowing right after a follow that added the edge gives back the table. */
  lemma UnfollowUndoesFollow(users: set<nat>, rows: seq<FollowRow>, me: nat, target: nat)
    requires Follow(users, rows, me, target).reply.OkCount?
    ensures Unfollow(users, Follow(users, rows, me, target).rows, me, target).rows == rows
  {
    RemoveFirstAppended(rows, FollowRow(me, target));
  }

  // -------------------------------------------------------------- favorites

  /** No (user, track) pair is favorited twice. */
  predicate ValidFavorites(rows: seq<FavoriteRow>)
  {
    NoDuplicates(rows)
  }

  /**
   `favorite(track_id)`: 404 for an unknown track, "already_favorited" when the pair
   exists, otherwise the pair is added.
   */
  function Favorite(tracks: set<nat>, rows: seq<FavoriteRow>, me: nat, track: nat): (r: Outcome<FavoriteRow>)
    ensures track !in tracks ==> r == Outcome(NotFound, rows)
    ensures r.reply == AlreadyFavorited <==> track in tracks && FavoriteRow(me, track) in rows
    ensures r.reply == Ok <==> track in tracks && FavoriteRow(me, track) !in rows
    ensures r.reply == Ok ==> r.rows == rows + [FavoriteRow(me, track)]
    ensures r.reply != Ok ==> r.rows == rows
  {
    if track !in tracks then Outcome(NotFound, rows)
    else if FavoriteRow(me, track) in rows then Outcome(AlreadyFavorited, rows)
    else Outcome(Ok, rows + [FavoriteRow(me, track)])
  }

  /**
   `unfavorite(track_id)`: no existence check on the track; the first matching pair,
   if any, is deleted, and the answer is always "ok".
   */
  function Unfavorite(rows: seq<FavoriteRow>, me: nat, track: nat): (r: Outcome<FavoriteRow>)
    ensures r.reply == Ok
    ensures multiset(r.rows) == multiset(rows) - multiset{FavoriteRow(me, track)}
    ensures FavoriteRow(me, track) !in rows ==> r.rows == rows
  {
    Outcome(Ok, RemoveFirst(rows, FavoriteRow(me, track)))
  }

  lemma FavoritePreservesValid(tracks: set<nat>, rows: seq<FavoriteRow>, me: nat, track: nat)
    requires ValidFavorites(rows)
    ensures ValidFavorites(Favorite(tracks, rows, me, track).rows)
  {
    if Favorite(tracks, rows, me, track).reply == Ok {
      AppendFresh(rows, FavoriteRow(me, track));
    }
  }

  /** Unfavoriting right after a favorite that added the pair gives back the table. */
  lemma UnfavoriteUndoesFavorite(tracks: set<nat>, rows: seq<FavoriteRow>, me: nat, track: nat)
    requires Favorite(tracks, rows, me, track).reply == Ok
    ensures Unfavorite(Favorite(tracks, rows, me, track).rows, me, track).rows == rows
  {
    RemoveFirstAppended(rows, FavoriteRow(me, track));
  }

  lemma UnfavoritePreservesValid(rows: seq<FavoriteRow>, me: nat, track: nat)
    requires ValidFavorites(rows)
    ensures ValidFavorites(Unfavorite(rows, me, track).rows)
    ensures FavoriteRow(me, track) !in Unfavorite(rows, me, track).rows
  {
    RemoveFirstRemovesAll(rows, FavoriteRow(me, track));
  }

  // -------------------------------------------------------- playlist tracks

  /** The playlist already holds the track, in any order position. */
  predicate Holds(rows: seq<PlaylistTrackRow>, playlist: nat, track: nat)
  {
    exists i :: 0 <= i < |rows| && rows[i].playlist == playlist && rows[i].track == track
  }

  /** No (playlist, track) pair appears in two rows. */
  predicate ValidPlaylistTracks(rows: seq<PlaylistTrackRow>)
  {
    forall i, j :: 0 <= i < j < |rows| ==> rows[i].playlist != rows[j].playlist || rows[i].track != rows[j].track
  }

  /**
   `playlist_add_track(playlist_id, track_id)`: 404 for an unknown playlist, 403 for
   someone else's; otherwise a row with the default order is added unless the pair
   is already there, and the answer is "ok". The track id itself is not checked.
   */
  function PlaylistAddTrack(playlists: map<nat, Playlist>, rows: seq<PlaylistTrackRow>, me: nat,
                            playlist: nat, track: nat): (r: Outcome<PlaylistTrackRow>)
    ensures playlist !in playlists ==> r == Outcome(NotFound, rows)
    ensures r.reply == Forbidden <==> playlist in playlists && playlists[playlist].owner != me
    ensures r.reply == Ok <==> playlist in playlists && playlists[playlist].owner == me
    ensures r.reply != Ok ==> r.rows == rows
    ensures r.reply == Ok ==> Holds(r.rows, playlist, track)
    ensures r.reply == Ok && Holds(rows, playlist, track) ==> r.rows == rows
    ensures r.reply == Ok && !Holds(rows, playlist, track) ==> r.rows == rows + [PlaylistTrackRow(playlist, track, 0)]
  {
    if playlist !in playlists then Outcome(NotFound, rows)
    else if playlists[playlist].owner != me then Outcome(Forbidden, rows)
    else if Holds(rows, playlist, track) then Outcome(Ok, rows)
    else
      var rows' := rows + [NewPlaylistTrack(playlist, track)];
      assert rows'[|rows|].playlist == playlist && rows'[|rows|].track == track;
      Outcome(Ok, rows')
  }

  lemma PlaylistAddPreservesValid(playlists: map<nat, Playlist>, rows: seq<PlaylistTrackRow>, me: nat,
                                  playlist: nat, track: nat)
    requires ValidPlaylistTracks(rows)
    ensures ValidPlaylistTracks(PlaylistAddTrack(playlists, rows, me, playlist, track).rows)
  {
    var r := PlaylistAddTrack(playlists, rows, me, playlist, track);
    if r.rows != rows {
      forall i, j | 0 <= i < j < |r.rows|
        ensures r.rows[i].playlist != r.rows[j].playlist || r.rows[i].track != r.rows[j].track
      {
        if j == |rows| {
          assert r.rows[i] == rows[i];
        } else {
          assert r.rows[i] == rows[i] && r.rows[j] == rows[j];
        }
      }
    }
  }

  /** Adding the same track twice leaves the table as one add does. */
  lemma PlaylistAddIdempotent(playlists: map<nat, Playlist>, rows: seq<PlaylistTrackRow>, me: nat,
                              playlist: nat, track: nat)
    ensures var once := PlaylistAddTrack(playlists, rows, me, playlist, track);
      PlaylistAddTrack(playlists, once.rows, me, playlist, track) == once
  {
  }
}
