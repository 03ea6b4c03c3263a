/** The mirror between a container's files and a bucket: what a synchronization transfers, and
    what it never takes back. */
module Mirror {
  type File = nat
  type Tree = map<string, File>

  /** The ETag of a single-part upload is the MD5 of the file, modelled as an injective
      constructor; that of a multipart upload says nothing. */
  datatype Etag = Md5Of(file: File) | Multipart
  datatype Object = Object(file: File, etag: Etag)

  predicate EtagOk(stored: Object) { stored.etag == Md5Of(stored.file) || stored.etag.Multipart? }

  class Bucket {
    var objects: map<string, Object>

    constructor () ensures objects == map[] { objects := map[]; }
  }

  function Base(prefix: string): string { if prefix == "" then "" else prefix + "/" }

  /** `list_objects_v2` under the prefix and one subtree of it. */
  predicate InScope(rel: string, sub: string) { sub == "" || sub + "/" <= rel }

  /** Directory markers and the prefix itself are no files. */
  predicate IsFileName(rel: string) { rel != "" && rel[|rel| - 1] != '/' }

  predicate Names(key: string, prefix: string, sub: string) {
    Base(prefix) <= key && InScope(key[|Base(prefix)|..], sub) && IsFileName(key[|Base(prefix)|..])
  }

  /** The part of the bucket a synchronization sees, as a tree. */
  function Remote(objects: map<string, Object>, prefix: string, sub: string): (r: Tree)
    ensures forall rel :: rel in r <==> Base(prefix) + rel in objects && InScope(rel, sub) && IsFileName(rel)
    ensures forall rel :: rel in r ==> r[rel] == objects[Base(prefix) + rel].file
  {
    var rels := set key | key in objects && Names(key, prefix, sub) :: key[|Base(prefix)|..];
    assert forall key :: key in objects && Names(key, prefix, sub) ==> Base(prefix) + key[|Base(prefix)|..] == key;
    assert forall rel :: (Base(prefix) + rel)[|Base(prefix)|..] == rel;
    assert forall rel :: Base(prefix) + rel in objects && InScope(rel, sub) && IsFileName(rel) ==>
      Names(Base(prefix) + rel, prefix, sub);
    map rel | rel in rels :: objects[Base(prefix) + rel].file
  }

  /** The part of a tree a synchronization scans. */
  function Local(tree: Tree, sub: string): Tree { map rel | rel in tree && InScope(rel, sub) :: tree[rel] }

  /** A file of a subtree: the whole tree is one, too. */
  predicate Below(rel: string, sub: string) {
    sub == "" || (|rel| > |sub| && rel[..|sub|] == sub && rel[|sub|] == '/')
  }

  /** What is seen of the bucket: the objects under the prefix, less the markers of directories;
      and of a tree: its files. */
  lemma SeenIff(objects: map<string, Object>, tree: Tree, prefix: string, sub: string, rel: string)
    ensures rel in Remote(objects, prefix, sub) <==>
              && (if |prefix| > 0 then prefix + "/" + rel in objects else rel in objects)
              && Below(rel, sub) && |rel| > 0 && rel[|rel| - 1] != '/'
    ensures rel in Local(tree, sub) <==> rel in tree && Below(rel, sub)
  {
    ScopeIff(rel, sub);
    assert "" + rel == rel;
  }

  lemma ScopeIff(rel: string, sub: string)
    ensures InScope(rel, sub) <==> Below(rel, sub)
  {
    var whole := sub + "/";
    if |rel| > |sub| {
      assert rel[..|whole|] == rel[..|sub|] + [rel[|sub|]];
    }
  }

  predicate WellFormed(objects: map<string, Object>) { forall key :: key in objects ==> EtagOk(objects[key]) }

  /** Files have names, and none ends in a separator. */
  predicate Files(tree: Tree) { forall rel :: rel in tree ==> IsFileName(rel) }

  function Part(tree: Tree, done: set<string>): Tree { map rel | rel in tree && rel in done :: tree[rel] }

  lemma PartNext(before: Tree, now: Tree, tree: Tree, done: set<string>, rel: string)
    requires now == before + Part(tree, done) && rel in tree
    ensures now[rel := tree[rel]] == before + Part(tree, done + {rel})
    ensures rel in now && now[rel] == tree[rel] ==> now == before + Part(tree, done + {rel})
  {}

  lemma PartWhole(tree: Tree)
    ensures Part(tree, tree.Keys) == tree && forall before: Tree :: before + Part(tree, {}) == before
  {}

  /** One object more, seen as a tree. */
  lemma RemoteNext(objects: map<string, Object>, prefix: string, rel: string, stored: Object)
    requires IsFileName(rel)
    ensures Remote(objects[Base(prefix) + rel := stored], prefix, "") == Remote(objects, prefix, "")[rel := stored.file]
  {
    var base := Base(prefix);
    hide Base;
    assert forall other :: (base + other)[|base|..] == other;
    assert forall other :: base + other == base + rel ==> (base + other)[|base|..] == (base + rel)[|base|..];
  }

  lemma RemoteAt(objects: map<string, Object>, prefix: string, sub: string, rel: string)
    requires WellFormed(objects) && rel in Remote(objects, prefix, sub)
    ensures Base(prefix) + rel in objects
    ensures var stored := objects[Base(prefix) + rel];
            stored.file == Remote(objects, prefix, sub)[rel]
              && (stored.etag == Md5Of(stored.file) || stored.etag.Multipart?)
  {
    assert EtagOk(objects[Base(prefix) + rel]);
  }

  class S3StateMirror {
    var tree: Tree
    const prefix: string
    const bucket: Bucket

    constructor (prefix: string, bucket: Bucket)
      ensures this.prefix == prefix && this.bucket == bucket && tree == map[]
    {
      this.prefix := prefix;
      this.bucket := bucket;
      tree := map[];
    }

    /** Whether the file is there with the content the ETag vouches for. */
    predicate Matches(rel: string, stored: Object)
      reads this`tree
    {
      rel in tree && stored.etag == Md5Of(tree[rel])
    }

    /** `sync_down`: files that are missing or differ are downloaded, and nothing is deleted. */
    method SyncDown(sub: string) returns (count: nat)
      requires WellFormed(bucket.objects)
      modifies this`tree
      ensures tree == old(tree) + Remote(bucket.objects, prefix, sub)
      ensures count == 0 ==> tree == old(tree)
    {
      hide Part, Base, Remote, WellFormed, EtagOk;
      count := 0;
      var remote := Remote(bucket.objects, prefix, sub);
      var todo := remote.Keys;
      ghost var done: set<string> := {};
      PartWhole(remote);
      while todo != {}
        invariant todo + done == remote.Keys
        invariant tree == old(tree) + Part(remote, done) && (count == 0 ==> tree == old(tree))
        decreases todo
      {
        var rel :| rel in todo;
        var stored := bucket.objects[Base(prefix) + rel];
        RemoteAt(bucket.objects, prefix, sub, rel);
        PartNext(old(tree), tree, remote, done, rel);
        if !Matches(rel, stored) {
          tree := tree[rel := stored.file];
          count := count + 1;
        }
        todo, done := todo - {rel}, done + {rel};
      }
    }

    /** `sync_up`: files the bucket lacks or holds differently are uploaded, and nothing is
        deleted. */
    method SyncUp(sub: string) returns (count: nat)
      requires WellFormed(bucket.objects) && Files(tree)
      modifies bucket
      ensures WellFormed(bucket.objects)
      ensures Remote(bucket.objects, prefix, "") == Remote(old(bucket.objects), prefix, "") + Local(tree, sub)
      ensures old(bucket.objects).Keys <= bucket.objects.Keys
    {
      hide Part, Base, Remote;
      count := 0;
      var scanned := Local(tree, sub);
      var todo := scanned.Keys;
      ghost var done: set<string> := {};
      ghost var before := Remote(bucket.objects, prefix, "");
      PartWhole(scanned);
      while todo != {}
        invariant todo + done == scanned.Keys && WellFormed(bucket.objects)
        invariant Remote(bucket.objects, prefix, "") == before + Part(scanned, done)
        invariant old(bucket.objects).Keys <= bucket.objects.Keys
        decreases todo
      {
        var rel :| rel in todo;
        var key := Base(prefix) + rel;
        PartNext(before, Remote(bucket.objects, prefix, ""), scanned, done, rel);
        if key in bucket.objects && Matches(rel, bucket.objects[key]) {
          assert EtagOk(bucket.objects[key]);
        } else {
          var stored := Upload(scanned[rel]);
          RemoteNext(bucket.objects, prefix, rel, stored);
          bucket.objects := bucket.objects[key := stored];
          count := count + 1;
        }
        todo, done := todo - {rel}, done + {rel};
      }
    }
  }

  /** An upload in one part, whose ETag is the MD5, or in several. */
  method Upload(file: File) returns (stored: Object)
    ensures stored.file == file && EtagOk(stored)
  {
    var parts: nat := *;
    stored := Object(file, if parts == 1 then Md5Of(file) else Multipart);
  }

  // ------------------------------------------------------------ two containers

  lemma SameKeys(before: Tree, tree: Tree)
    ensures before + tree == tree <==> before.Keys <= tree.Keys
  {
    var all := before + tree;
    if before.Keys <= tree.Keys {
      assert forall rel :: rel in all <==> rel in tree;
    } else {
      var rel :| rel in before && rel !in tree;
      assert rel in all;
    }
  }

  lemma WholeTree(tree: Tree, objects: map<string, Object>, prefix: string)
    ensures Local(tree, "") == tree && map[] + Remote(objects, prefix, "") == Remote(objects, prefix, "")
  {}

  /** One container uploads its tree and a fresh one downloads it. The second holds exactly the
      first's tree if and only if the bucket held no other file before: files that were deleted
      from the tree are not deleted from the bucket, and come back. */
  method Restore(mine: S3StateMirror, other: S3StateMirror)
    requires mine != other && mine.bucket == other.bucket && mine.prefix == other.prefix
    requires WellFormed(mine.bucket.objects) && Files(mine.tree) && other.tree == map[]
    modifies mine.bucket, other`tree
    ensures other.tree == Remote(old(mine.bucket.objects), mine.prefix, "") + mine.tree
    ensures other.tree == mine.tree <==> Remote(old(mine.bucket.objects), mine.prefix, "").Keys <= mine.tree.Keys
  {
    hide Base, Remote, Local, Files;
    ghost var before := Remote(mine.bucket.objects, mine.prefix, "");
    var _ := mine.SyncUp("");
    WholeTree(mine.tree, mine.bucket.objects, mine.prefix);
    var _ := other.SyncDown("");
    SameKeys(before, mine.tree);
  }

  lemma ApartCommute(remote: Tree, mine: Tree, theirs: Tree)
    requires mine.Keys !! theirs.Keys
    ensures remote + mine + theirs == remote + theirs + mine
  {}

  lemma ScopesApart(mine: Tree, theirs: Tree, a: string, b: string)
    requires forall rel :: !(InScope(rel, a) && InScope(rel, b))
    ensures Local(mine, a).Keys !! Local(theirs, b).Keys
  {}

  /** Two containers that change disjoint subtrees and upload only those: in either order the
      bucket ends up with the changes of both. */
  method UploadBoth(mine: S3StateMirror, theirs: S3StateMirror, a: string, b: string, mineFirst: bool)
    requires mine.bucket == theirs.bucket && mine.prefix == theirs.prefix
    requires WellFormed(mine.bucket.objects) && Files(mine.tree) && Files(theirs.tree)
    requires forall rel :: !(InScope(rel, a) && InScope(rel, b))
    modifies mine.bucket
    ensures Remote(mine.bucket.objects, mine.prefix, "") ==
            Remote(old(mine.bucket.objects), mine.prefix, "") + Local(mine.tree, a) + Local(theirs.tree, b)
  {
    hide Base, Remote, Local, Files, InScope;
    ScopesApart(mine.tree, theirs.tree, a, b);
    ApartCommute(Remote(mine.bucket.objects, mine.prefix, ""), Local(mine.tree, a), Local(theirs.tree, b));
    if mineFirst {
      var _ := mine.SyncUp(a);
      var _ := theirs.SyncUp(b);
    } else {
      var _ := theirs.SyncUp(b);
      var _ := mine.SyncUp(a);
    }
  }
}
