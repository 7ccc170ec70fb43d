/**
 * pulumi/resources/docker/dockerHelper.ts: a component that builds a Docker image named
 * `imageName:version`, the version being the trimmed content of a version file.
 */
module DockerHelper {
  import opened Wrappers
  import opened Resources
  import opened Text
  import Files

  /** DockerHelperArgs, every input resolved. */
  datatype Args = Args(context: string, dockerfile: string, imageName: string, versionFilePath: string,
                       buildArgs: Option<Tags>, platform: Option<string>)

  const ComponentType: string := "utils:docker:DockerImage"
  const TagSeparator: string := ":"

  /**
   * `pulumi.interpolate`${args.imageName}:${version}``, where `version` is readFileVersion
   * applied to the path. A failed read rejects the output, with readFileVersion's error.
   */
  function FullImageName(fs: Files.FileSystem, args: Args): (r: Result<string, string>)
    ensures r.Success? <==> args.versionFilePath in fs.files
    ensures r.Success? ==> |r.value| > |args.imageName| &&
                           r.value[..|args.imageName| + 1] == args.imageName + TagSeparator &&
                           IsTrimOf(r.value[|args.imageName| + 1..], fs.files[args.versionFilePath])
    ensures r.Failure? ==> r.error == Files.ReadFileVersion(fs, args.versionFilePath).error
  {
    match Files.ReadFileVersion(fs, args.versionFilePath)
    case Failure(e) => Failure(e)
    case Success(version) =>
      var full := args.imageName + TagSeparator + version;
      assert full[|args.imageName| + 1..] == version;
      Success(full)
  }

  function ImageDecl(fs: Files.FileSystem, name: string, args: Args): (r: Resource)
    ensures r.DockerImage? && r.name == name && r.parent == Some(Ref(ComponentType, name))
    ensures r.context == args.context && r.dockerfile == args.dockerfile
    ensures r.buildArgs == args.buildArgs && r.platform == args.platform
    ensures r.imageName.Success? <==> args.versionFilePath in fs.files
  {
    DockerImage(name, Some(Ref(ComponentType, name)), args.context, args.dockerfile, args.buildArgs,
                args.platform, FullImageName(fs, args))
  }

  function Plan(fs: Files.FileSystem, name: string, args: Args, parent: Parent): (r: seq<Resource>)
    ensures |r| == 2 && r[0] == Component(ComponentType, name, parent)
    ensures r[1].DockerImage? && r[1].parent == Some(Ref(ComponentType, name))
  {
    [Component(ComponentType, name, parent), ImageDecl(fs, name, args)]
  }

  class DockerHelper {
    const image: Resource
    /**
     * `this.image.imageName`. The image echoes the name it was given, so this is its input
     * name, rejected when the version read failed.
     */
    const imageName: Result<string, string>

    constructor(stack: Stack, fs: Files.FileSystem, name: string, args: Args, parent: Parent)
      modifies stack
      ensures stack.resources == old(stack.resources) + Plan(fs, name, args, parent)
      ensures image == ImageDecl(fs, name, args) && imageName == image.imageName
    {
      var img := ImageDecl(fs, name, args);
      image := img;
      imageName := img.imageName;
      new;
      stack.Register(Component(ComponentType, name, parent));
      stack.Register(img);
    }
  }

  /**
   * The image's name is the given name, ":", and the version file's content with the
   * surrounding whitespace removed, so the tag neither starts nor ends with whitespace.
   */
  lemma {:induction false} ImageNameIsNameColonVersion(fs: Files.FileSystem, name: string, args: Args)
    requires args.versionFilePath in fs.files
    ensures ImageDecl(fs, name, args).imageName ==
              Success(args.imageName + TagSeparator + Trim(fs.files[args.versionFilePath]))
    ensures Trimmed(ImageDecl(fs, name, args).imageName.value[|args.imageName| + 1..])
  {
    var r := FullImageName(fs, args);
    var version := r.value[|args.imageName| + 1..];
    TrimIsUnique(fs.files[args.versionFilePath], version);
    assert r.value == r.value[..|args.imageName| + 1] + version;
  }

  /** A version file of "1.2.3\n" names the image `imageName:1.2.3`. */
  lemma {:induction false} VersionLineTag(fs: Files.FileSystem, name: string, args: Args)
    requires args.versionFilePath in fs.files && fs.files[args.versionFilePath] == "1.2.3\n"
    ensures ImageDecl(fs, name, args).imageName == Success(args.imageName + ":1.2.3")
  {
    Files.ReadVersionLine(fs, args.versionFilePath);
    assert args.imageName + TagSeparator + "1.2.3" == args.imageName + ":1.2.3";
  }

  /**
   * An unreadable version file still declares the image, but its name is rejected with
   * "Failed to read version from <path>: <cause>".
   */
  lemma UnreadableVersion(fs: Files.FileSystem, name: string, args: Args, parent: Parent)
    requires args.versionFilePath !in fs.files
    ensures |Plan(fs, name, args, parent)| == 2 && Plan(fs, name, args, parent)[1].DockerImage?
    ensures Plan(fs, name, args, parent)[1].imageName ==
              Failure("Failed to read version from " + args.versionFilePath + ": " + fs.errorMessage(args.versionFilePath))
  {
  }

  /** The build context, dockerfile, build args and platform are passed through; the image is a child of the component. */
  lemma PassThrough(fs: Files.FileSystem, name: string, args: Args, parent: Parent)
    ensures var p := Plan(fs, name, args, parent);
      && p[0] == Component(ComponentType, name, parent) && p[1].DockerImage? && p[1].name == name
      && p[1].parent == Some(RefOf(p[0]))
      && p[1].context == args.context && p[1].dockerfile == args.dockerfile
      && p[1].buildArgs == args.buildArgs && p[1].platform == args.platform
  {
  }
}
