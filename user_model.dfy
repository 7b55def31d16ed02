/**
  The User collection as the socket handler and the chat controller use it. Only the
  fields they read or write are kept; the User schema itself is not part of this model.
*/
module UserModel {
  import opened Common
  import opened Protocol

  /** A User document: its id, public profile, the `isOnline` flag and `lastSeen` timestamp. */
  datatype UserRecord = UserRecord(id: UserId, username: string, avatar: string, isOnline: bool, lastSeen: Option<int>)

  /** What `.select('username avatar _id')` keeps of a document. */
  function Summary(u: UserRecord): UserSummary
  {
    UserSummary(u.id, u.username, u.avatar)
  }

  /**
    `User.findByIdAndUpdate(id, {isOnline: online[, lastSeen]})`: the document with that id gets the
    new flag (and timestamp when one is given); every other document is untouched; a missing id changes nothing.
  */
  function MarkUser(users: seq<UserRecord>, id: UserId, online: bool, lastSeen: Option<int>): (r: seq<UserRecord>)
    ensures |r| == |users|
    ensures forall i :: 0 <= i < |users| && users[i].id != id ==> r[i] == users[i]
    ensures forall i :: 0 <= i < |users| && users[i].id == id ==>
      r[i] == users[i].(isOnline := online, lastSeen := if lastSeen.Some? then lastSeen else users[i].lastSeen)
  {
    if users == [] then []
    else
      var u := users[0];
      var u' := if u.id == id then u.(isOnline := online, lastSeen := if lastSeen.Some? then lastSeen else u.lastSeen) else u;
      [u'] + MarkUser(users[1..], id, online, lastSeen)
  }

  /** `s` is the profile of some online document of `users`. */
  ghost predicate FromOnline(users: seq<UserRecord>, s: UserSummary)
  {
    exists i :: 0 <= i < |users| && users[i].isOnline && s == Summary(users[i])
  }

  /** `User.find({isOnline: true}).select('username avatar _id')`: the online documents, in collection order. */
  function OnlineSnapshot(users: seq<UserRecord>): (r: seq<UserSummary>)
    ensures |r| <= |users|
    ensures forall i :: 0 <= i < |users| && users[i].isOnline ==> Summary(users[i]) in r
    ensures forall j :: 0 <= j < |r| ==> FromOnline(users, r[j])
  {
    if users == [] then []
    else
      var rest := OnlineSnapshot(users[1..]);
      var head := if users[0].isOnline then [Summary(users[0])] else [];
      assert forall j :: 0 <= j < |rest| ==> FromOnline(users, rest[j]) by {
        forall j | 0 <= j < |rest| ensures FromOnline(users, rest[j]) {
          assert FromOnline(users[1..], rest[j]);
          var i :| 0 <= i < |users[1..]| && users[1..][i].isOnline && rest[j] == Summary(users[1..][i]);
          assert users[i + 1] == users[1..][i];
        }
      }
      head + rest
  }

  /** Marking a user online puts its profile into the next snapshot; marking it offline leaves no entry with its id. */
  lemma {:induction false} MarkUserSnapshot(users: seq<UserRecord>, id: UserId, online: bool, lastSeen: Option<int>)
    ensures online ==> forall i :: 0 <= i < |users| && users[i].id == id ==>
      Summary(users[i]) in OnlineSnapshot(MarkUser(users, id, online, lastSeen))
    ensures !online ==> forall j :: 0 <= j < |OnlineSnapshot(MarkUser(users, id, online, lastSeen))| ==>
      OnlineSnapshot(MarkUser(users, id, online, lastSeen))[j].id != id
  {
    var r := MarkUser(users, id, online, lastSeen);
    forall i | 0 <= i < |users| && users[i].id == id
      ensures Summary(r[i]) == Summary(users[i])
    {
    }
    forall j | 0 <= j < |OnlineSnapshot(r)| && !online ensures OnlineSnapshot(r)[j].id != id {
      assert FromOnline(r, OnlineSnapshot(r)[j]);
    }
  }
}
