/**
 * The `post` table seen through one SQLAlchemy session: the committed rows and the
 * posts added to the session but not yet committed. Queries flush the session first
 * (autoflush), so a query sees both.
 */
module Store {
  import opened Wrappers
  import opened Feeds

  class Session {
    /** Rows committed to the table. */
    var rows: seq<Post>
    /** Posts passed to `db.session.add` since the last commit. */
    var pending: seq<Post>

    /** The `link` column is unique over everything the session will write. */
    ghost predicate Valid()
      reads this
    {
      UniqueLinks(rows + pending)
    }

    /** The links a query through this session can find. */
    ghost function Links(): set<string>
      reads this
    {
      LinksOf(rows + pending)
    }

    constructor (committed: seq<Post>)
      requires UniqueLinks(committed)
      ensures rows == committed && pending == []
      ensures Valid()
    {
      rows := committed;
      pending := [];
      new;
      assert rows + pending == committed;
    }

    /** `Post.query.filter_by(link=link).first()` */
    method FindByLink(link: string) returns (found: Option<Post>)
      ensures found.Some? ==> found.value in rows + pending && found.value.link == link
      ensures found.None? <==> link !in Links()
    {
      var table := rows + pending;
      var i := 0;
      while i < |table|
        invariant 0 <= i <= |table|
        invariant forall j :: 0 <= j < i ==> table[j].link != link
      {
        if table[i].link == link {
          return Some(table[i]);
        }
        i := i + 1;
      }
      return None;
    }

    /** `db.session.add(post)`; the unique `link` column rejects a link already present. */
    method Add(post: Post)
      requires Valid() && post.link !in Links()
      modifies this
      ensures rows == old(rows) && pending == old(pending) + [post]
      ensures Valid()
      ensures Links() == old(Links()) + {post.link}
    {
      UniqueLinksAppend(rows + pending, post);
      LinksOfAppend(rows + pending, post);
      pending := pending + [post];
      assert rows + pending == old(rows + pending) + [post];
    }

    /** `db.session.commit()`: every pending post becomes a row. */
    method Commit()
      requires Valid()
      modifies this
      ensures rows == old(rows) + old(pending) && pending == []
      ensures Valid() && Links() == old(Links())
    {
      rows := rows + pending;
      pending := [];
      assert rows + pending == old(rows + pending);
    }
  }
}
