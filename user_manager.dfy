/**
 * `UserManager` of backend/api/users/models.py: the custom manager of a user
 * model identified by its email address. The user table is a sequence of
 * saved records threaded through each call; `normalize_email` is a library
 * routine and stays abstract as a function parameter; `set_password` is
 * recorded as the password the record was given.
 */
module Users {
  import opened Wrappers

  /** A value passed for a model field as a keyword argument. */
  datatype FieldValue = BoolValue(b: bool) | TextValue(s: string) | IntValue(i: int)

  /** `**extra_fields` */
  type ExtraFields = map<string, FieldValue>

  /** What `set_password` has done to a user object: nothing yet, or set it from this raw password. */
  datatype Password = NotSet | SetFrom(raw: Option<string>)

  datatype UserRecord = UserRecord(email: string, fields: ExtraFields, password: Password)

  const EmailRequired := "Email address is required"
  /** `USERNAME_FIELD`: the email address identifies a user. */
  const UsernameField := "email"

  /**
   * The keyword arguments Python can collect into `**extra_fields`: a name
   * that is a named parameter of `create_user`/`create_superuser` is bound to
   * that parameter instead.
   */
  predicate KeywordsOnly(extra: ExtraFields) {
    "self" !in extra && UsernameField !in extra && "password" !in extra
  }

  /** `dict.setdefault(key, value)`: adds the entry only when the key is absent. */
  function SetDefault(fields: ExtraFields, key: string, value: FieldValue): (r: ExtraFields)
    ensures r.Keys == fields.Keys + {key}
    ensures key in fields ==> r == fields
    ensures key !in fields ==> r[key] == value
    ensures forall k :: k in fields ==> r[k] == fields[k]
  {
    if key in fields then fields else fields[key := value]
  }

  /**
   * `create_user`: rejects a missing or empty email and then saves nothing;
   * otherwise saves, and returns, a user with the normalized email, every
   * extra field and the password set before the save.
   */
  method CreateUser(table: seq<UserRecord>, normalize: string -> string,
                    email: Option<string>, password: Option<string>, extra: ExtraFields)
    returns (r: Result<UserRecord, string>, table': seq<UserRecord>)
    requires KeywordsOnly(extra)
    ensures r.Success? <==> email.Some? && email.value != ""
    ensures r.Failure? ==> r.error == EmailRequired && table' == table
    ensures r.Success? ==> r.value.email == normalize(email.value)
    ensures r.Success? ==> r.value.fields == extra
    ensures r.Success? ==> r.value.password == SetFrom(password)
    ensures r.Success? ==> table' == table + [r.value]
  {
    if email.None? || email.value == "" {
      return Failure(EmailRequired), table;
    }
    var normalized := normalize(email.value);
    var user := UserRecord(normalized, extra, NotSet);
    user := user.(password := SetFrom(password));
    table' := table + [user];
    r := Success(user);
  }

  /**
   * `create_superuser`: `is_staff` and `is_superuser` default to true, but
   * values the caller passed are kept; then the same rules as `create_user`.
   */
  method CreateSuperuser(table: seq<UserRecord>, normalize: string -> string,
                         email: Option<string>, password: Option<string>, extra: ExtraFields)
    returns (r: Result<UserRecord, string>, table': seq<UserRecord>)
    requires KeywordsOnly(extra)
    ensures r.Success? <==> email.Some? && email.value != ""
    ensures r.Failure? ==> r.error == EmailRequired && table' == table
    ensures r.Success? ==> r.value.email == normalize(email.value) && r.value.password == SetFrom(password)
    ensures r.Success? ==> r.value.fields.Keys == extra.Keys + {"is_staff", "is_superuser"}
    ensures r.Success? ==> r.value.fields["is_staff"] == (if "is_staff" in extra then extra["is_staff"] else BoolValue(true))
    ensures r.Success? ==> r.value.fields["is_superuser"] == (if "is_superuser" in extra then extra["is_superuser"] else BoolValue(true))
    ensures r.Success? ==> forall k :: k in extra ==> r.value.fields[k] == extra[k]
    ensures r.Success? ==> table' == table + [r.value]
  {
    var fields := extra;
    fields := SetDefault(fields, "is_staff", BoolValue(true));
    fields := SetDefault(fields, "is_superuser", BoolValue(true));
    r, table' := CreateUser(table, normalize, email, password, fields);
  }
}
