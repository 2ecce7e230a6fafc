/** The chat user (a WhatsApp sender) and its classification. */
module UserModel {
  import opened Text

  datatype UserType = Anonymous | Acreetor | Enterprise {
    /** The enum's value. */
    function Value(): (s: string)
      ensures s != []
    {
      match this
      case Anonymous => "anonymous"
      case Acreetor => "acreetor"
      case Enterprise => "enterprise"
    }
  }

  /** What the `type_user` attribute holds: the enum (the only thing pydantic
      validation puts there), a plain string assigned past validation, or no
      attribute at all. */
  datatype TypeTag = Typed(t: UserType) | Raw(s: string) | Unset

  datatype User = User(
    userId: string,
    name: string,
    isIndiUser: bool,
    isEnterprise: bool,
    typeUser: TypeTag,
    currentSessionId: string)

  /** `User()`: every field at its default. */
  const DefaultUser := User("", "", false, false, Typed(Anonymous), "")

  /** `get_type()`: the enum's value, a non-empty string as it is, otherwise
      'anonymous'. */
  function GetType(u: User): (r: string)
    ensures r != []
    ensures u.typeUser.Typed? ==> r == u.typeUser.t.Value()
    ensures u.typeUser.Raw? && u.typeUser.s != [] ==> r == u.typeUser.s
    ensures u.typeUser.Unset? || u.typeUser == Raw("") ==> r == "anonymous"
  {
    match u.typeUser
    case Typed(t) => t.Value()
    case Raw(s) => if s != [] then s else "anonymous"
    case Unset => "anonymous"
  }

  /** The enum values are told apart by their text. */
  lemma ValueInjective(a: UserType, b: UserType)
    ensures a.Value() == b.Value() <==> a == b
  {
  }

  /** A default user is anonymous and not an Indi user. */
  lemma DefaultIsAnonymous()
    ensures GetType(DefaultUser) == "anonymous"
    ensures !DefaultUser.isIndiUser && !DefaultUser.isEnterprise
  {
  }
}
