/**
  `CustomUser`, the sample host entity over the seed `users` table: `id`,
  `username`, `avatar` and `description` are columns, and the abstract fields
  `full_name` and `bio` are accessors that both route to `username`.
 */
module CustomUser {

  class CustomUser {
    var id: int
    var username: string
    var avatar: string
    var description: string

    constructor (id: int, username: string, avatar: string, description: string)
      ensures this.id == id && this.username == username
      ensures this.avatar == avatar && this.description == description
    {
      this.id := id;
      this.username := username;
      this.avatar := avatar;
      this.description := description;
    }

    /** `get full_name()` */
    function FullName(): string
      reads this
    {
      username
    }

    /** `get bio()` */
    function Bio(): string
      reads this
    {
      username
    }

    /** `set full_name(value)`: writes `username`, so both accessors read the new value. */
    method SetFullName(value: string)
      modifies this
      ensures username == value
      ensures FullName() == value && Bio() == value
      ensures id == old(id) && avatar == old(avatar) && description == old(description)
    {
      username := value;
    }

    /** `set bio(value)`: also writes `username`, so `full_name` changes with it. */
    method SetBio(value: string)
      modifies this
      ensures username == value
      ensures Bio() == value && FullName() == value
      ensures id == old(id) && avatar == old(avatar) && description == old(description)
    {
      username := value;
    }

    /** `avatar = value`: a plain column. */
    method SetAvatar(value: string)
      modifies this
      ensures avatar == value
      ensures id == old(id) && username == old(username) && description == old(description)
    {
      avatar := value;
    }
  }

  /** The two accessors always agree, whatever was assigned last. */
  lemma BioIsFullName(u: CustomUser)
    ensures u.Bio() == u.FullName()
  {
  }
}
