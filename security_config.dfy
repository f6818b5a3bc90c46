/**
 * The security configuration bean: realms in order, users, role mappings and
 * role permissions by name, and the sessions settings, with chained setters
 * and builders that return the object they change.
 */
module SecurityConfiguration {
  import opened Wrappers
  import opened JavaTypes

  /** Fifteen minutes, in milliseconds. */
  const DEFAULT_SESSION_TIMEOUT: Long := 1000 * 60 * 15

  /** A realm's settings; `None` stands for Java's `null`, which the setters also accept. */
  class RealmConfig {
    var name: Option<string>
    var roleMapper: Option<string>
    var permissionResolver: Option<string>

    constructor()
      ensures name.None? && roleMapper.None? && permissionResolver.None?
    {
      name := None;
      roleMapper := None;
      permissionResolver := None;
    }

    method SetName(name: Option<string>) returns (r: RealmConfig)
      modifies this
      ensures r == this && this.name == name
      ensures roleMapper == old(roleMapper) && permissionResolver == old(permissionResolver)
    {
      this.name := name;
      return this;
    }

    method SetRoleMapper(roleMapper: Option<string>) returns (r: RealmConfig)
      modifies this
      ensures r == this && this.roleMapper == roleMapper
      ensures name == old(name) && permissionResolver == old(permissionResolver)
    {
      this.roleMapper := roleMapper;
      return this;
    }

    method SetPermissionResolver(permissionResolver: Option<string>) returns (r: RealmConfig)
      modifies this
      ensures r == this && this.permissionResolver == permissionResolver
      ensures name == old(name) && roleMapper == old(roleMapper)
    {
      this.permissionResolver := permissionResolver;
      return this;
    }
  }

  class UserConfig {
    var password: string
    var roles: set<string>

    constructor()
      ensures password == "" && roles == {}
    {
      password := "";
      roles := {};
    }

    method SetPassword(password: string) returns (r: UserConfig)
      modifies this
      ensures r == this && this.password == password && roles == old(roles)
    {
      this.password := password;
      return this;
    }

    /** Adds a role; the roles are a set, so adding one again changes nothing. */
    method AddRole(role: string) returns (r: UserConfig)
      modifies this
      ensures r == this && roles == old(roles) + {role} && password == old(password)
      ensures role in old(roles) ==> roles == old(roles)
    {
      roles := roles + {role};
      return this;
    }
  }

  class SessionsConfig {
    var enabled: bool
    var timeout: Long   // milliseconds

    constructor()
      ensures !enabled && timeout == DEFAULT_SESSION_TIMEOUT
    {
      enabled := false;
      timeout := DEFAULT_SESSION_TIMEOUT;
    }

    method SetEnabled(enabled: bool) returns (r: SessionsConfig)
      modifies this
      ensures r == this && this.enabled == enabled && timeout == old(timeout)
    {
      this.enabled := enabled;
      return this;
    }

    /**
     * Takes the timeout in seconds and stores it in milliseconds, as a Java
     * `long` product: it wraps around beyond the `long` range.
     */
    method SetTimeout(seconds: Long) returns (r: SessionsConfig)
      modifies this
      ensures r == this && enabled == old(enabled)
      ensures timeout == WrapLong(seconds * 1000)
      ensures LONG_MIN <= seconds * 1000 <= LONG_MAX ==> timeout == 1000 * seconds
    {
      timeout := WrapLong(seconds * 1000);
      return this;
    }
  }

  /** Seconds in, milliseconds out, for every timeout up to a bit over 292 million years. */
  lemma TimeoutInMilliseconds(seconds: Long)
    requires -9_223_372_036_854_775 <= seconds <= 9_223_372_036_854_775
    ensures WrapLong(seconds * 1000) == 1000 * seconds
  {
  }

  /** Beyond that range the stored timeout is not the product. */
  lemma TimeoutWraps()
    ensures WrapLong(9_223_372_036_854_776 * 1000) < 0
  {
  }

  class SecurityConfig {
    const sessions: SessionsConfig
    var realms: seq<RealmConfig>
    var users: map<string, UserConfig>
    var roles: map<string, set<string>>
    var permissions: map<string, set<string>>

    constructor()
      ensures fresh(sessions) && !sessions.enabled && sessions.timeout == DEFAULT_SESSION_TIMEOUT
      ensures realms == [] && users == map[] && roles == map[] && permissions == map[]
    {
      sessions := new SessionsConfig();
      realms := [];
      users := map[];
      roles := map[];
      permissions := map[];
    }

    /** Appends a realm: the realms keep the order they were added in. */
    method AddRealm(realm: RealmConfig) returns (r: SecurityConfig)
      modifies this
      ensures r == this && realms == old(realms) + [realm]
      ensures users == old(users) && roles == old(roles) && permissions == old(permissions)
    {
      realms := realms + [realm];
      return this;
    }

    /** Sets the user of that name, replacing any earlier one. */
    method AddUser(name: string, user: UserConfig) returns (r: SecurityConfig)
      modifies this
      ensures r == this && users == old(users)[name := user]
      ensures realms == old(realms) && roles == old(roles) && permissions == old(permissions)
    {
      users := users[name := user];
      return this;
    }

    /** Maps a role to its source roles, replacing any earlier mapping. */
    method AddRole(name: string, sourceRoles: set<string>) returns (r: SecurityConfig)
      modifies this
      ensures r == this && roles == old(roles)[name := sourceRoles]
      ensures realms == old(realms) && users == old(users) && permissions == old(permissions)
    {
      roles := roles[name := sourceRoles];
      return this;
    }

    /** Sets a role's permissions, replacing any earlier ones. */
    method AddRolePermissions(role: string, rolePermissions: set<string>) returns (r: SecurityConfig)
      modifies this
      ensures r == this && permissions == old(permissions)[role := rolePermissions]
      ensures realms == old(realms) && users == old(users) && roles == old(roles)
    {
      permissions := permissions[role := rolePermissions];
      return this;
    }
  }
}
