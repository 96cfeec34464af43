/**
 * The principal a request carries and the two role checks, `IsAdministrador`
 * and `IsOrganismoSectorial`, which both views files define identically.
 * A user's groups are the rows of the user's group relation, in the order the
 * database returns them; `groups.filter(name=...).exists()` searches them.
 */
module Auth {

  const AdministradorGroup := "Administrador"
  const OrganismoSectorialGroup := "OrganismoSectorial"

  datatype Principal = Principal(isAuthenticated: bool, groups: seq<string>)

  /** `groups.filter(name=name).exists()`. */
  function GroupExists(groups: seq<string>, name: string): (r: bool)
    ensures r <==> name in groups
    decreases |groups|
  {
    if groups == [] then false
    else groups[0] == name || GroupExists(groups[1..], name)
  }

  /** Django REST framework's `IsAuthenticated`. */
  predicate IsAuthenticated(p: Principal)
  {
    p.isAuthenticated
  }

  /** `IsAdministrador.has_permission`. */
  function IsAdministrador(p: Principal): (r: bool)
    ensures r <==> p.isAuthenticated && AdministradorGroup in p.groups
  {
    p.isAuthenticated && GroupExists(p.groups, AdministradorGroup)
  }

  /** `IsOrganismoSectorial.has_permission`. */
  function IsOrganismoSectorial(p: Principal): (r: bool)
    ensures r <==> p.isAuthenticated && OrganismoSectorialGroup in p.groups
  {
    p.isAuthenticated && GroupExists(p.groups, OrganismoSectorialGroup)
  }

  /**
   * Why a request was refused before it touched any data: no authenticated
   * principal (HTTP 401), or a principal lacking a role (HTTP 403, with the
   * message the response carries).
   */
  datatype AccessDenial = NotAuthenticated | PermissionDenied(detail: string)

  /** The outcome of a list, retrieve or delete request. */
  datatype Response<+R> =
    | Ok(value: R)
    | Denied(reason: AccessDenial)
    | NotFound(detail: string)
}
