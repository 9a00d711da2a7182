/**
 * A dependency of an Eclipse project on another project of the build: its
 * path, fixed at construction, and the target project with that project's
 * identifier, set together once a target is known.
 */
module EclipseModel {
  import opened Wrappers

  datatype DefaultEclipseProjectIdentifier = DefaultEclipseProjectIdentifier(projectDirectory: string)

  /** An Eclipse project; only its identifier is read here. */
  class DefaultEclipseProject {
    const identifier: DefaultEclipseProjectIdentifier

    constructor (identifier: DefaultEclipseProjectIdentifier)
      ensures this.identifier == identifier
    {
      this.identifier := identifier;
    }

    function GetIdentifier(): DefaultEclipseProjectIdentifier {
      identifier
    }
  }

  const ToStringPrefix: string := "project dependency "

  class DefaultEclipseProjectDependency {
    var targetIdentifier: Option<DefaultEclipseProjectIdentifier>
    const path: string
    var targetProject: DefaultEclipseProject?

    /** The target fields are both unset, or the identifier is the target's own. */
    ghost predicate Valid()
      reads this
    {
      if targetProject == null then targetIdentifier == None
      else targetIdentifier == Some(targetProject.GetIdentifier())
    }

    constructor (path: string)
      ensures Valid()
      ensures GetTargetProject() == null && GetTarget() == None
      ensures GetPath() == path
    {
      this.targetProject := null;
      this.targetIdentifier := None;
      this.path := path;
    }

    function GetTargetProject(): (p: DefaultEclipseProject?)
      reads this
      ensures p == targetProject
      ensures Valid() && p != null ==> targetIdentifier == Some(p.GetIdentifier())
    {
      targetProject
    }

    function GetTarget(): (id: Option<DefaultEclipseProjectIdentifier>)
      reads this
      ensures id == targetIdentifier
      ensures Valid() ==> (id.Some? <==> targetProject != null)
    {
      targetIdentifier
    }

    function GetPath(): (p: string)
      ensures p == path
    {
      path
    }

    /**
     * Ignores null; otherwise sets the target project and its identifier
     * together, so that afterwards the invariant holds whatever came before.
     */
    method SetTargetProject(targetProject: DefaultEclipseProject?)
      modifies this
      ensures targetProject == null ==> unchanged(this)
      ensures targetProject != null ==>
        GetTargetProject() == targetProject && GetTarget() == Some(targetProject.GetIdentifier())
      ensures targetProject != null ==> Valid()
      ensures old(Valid()) ==> Valid()
    {
      if targetProject != null {
        this.targetProject := targetProject;
        this.targetIdentifier := Some(targetProject.GetIdentifier());
      }
    }

    /** "project dependency " followed by the path. */
    function ToString(): (s: string)
      ensures |s| == |ToStringPrefix| + |path|
      ensures s[..|ToStringPrefix|] == ToStringPrefix
      ensures s[|ToStringPrefix|..] == path
    {
      ToStringPrefix + path
    }
  }
}
