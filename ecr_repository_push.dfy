/**
 * pulumi/resources/aws/ecrRepository/ecrRepositoryPush.ts: a component that builds an image
 * and pushes it to an ECR repository, tagged with the trimmed content of a version file.
 */
module EcrRepositoryPush {
  import opened Wrappers
  import opened Resources
  import opened Text
  import Files

  /** EcrRepositoryPushArgs (and ImagePushArgs, which declares the same fields), every input resolved. */
  datatype Args = Args(repositoryUrl: string, context: string, dockerfile: string, platform: Option<string>,
                       versionFilePath: string)

  /**
   * The component registers under the same type token as the awsx.ecr.Image it declares, and
   * the image takes the component's name, so Ref(ComponentType, name) and RefOf of the image
   * coincide: the Engine reads both through the same key. The deployment engine tells the two
   * apart by the parent chain in their URNs, which Ref does not carry; no lemma here relies on
   * the two being distinct.
   */
  const ComponentType: string := "awsx:ecr:Image"
  const ImageUriAttribute: string := "imageUri"

  /**
   * The awsx.ecr.Image both variants declare: the repository URL, context, dockerfile and
   * platform as given, and the tag readFileVersion yields (rejected when the read fails).
   */
  function ImageDecl(fs: Files.FileSystem, name: string, args: Args, parent: Parent): (r: Resource)
    ensures r.EcrImage? && r.name == name && r.parent == parent
    ensures r.repositoryUrl == args.repositoryUrl && r.context == args.context
    ensures r.dockerfile == args.dockerfile && r.platform == args.platform
    ensures r.imageTag.Success? <==> args.versionFilePath in fs.files
    ensures r.imageTag.Success? ==> IsTrimOf(r.imageTag.value, fs.files[args.versionFilePath])
    ensures r.imageTag.Failure? ==>
              r.imageTag.error == "Failed to read version from " + args.versionFilePath + ": " +
                                  fs.errorMessage(args.versionFilePath)
  {
    EcrImage(name, parent, args.repositoryUrl, args.context, args.dockerfile, args.platform,
             Files.ReadFileVersion(fs, args.versionFilePath))
  }

  /** `image.imageUri`: the URI the engine reports, or the rejection of the tag it depends on. */
  function ImageUri(image: Resource, out: Engine): (u: Result<string, string>)
    requires image.EcrImage?
    ensures u.Success? <==> image.imageTag.Success?
    ensures u.Success? ==> u.value == out(RefOf(image), ImageUriAttribute)
    ensures u.Failure? ==> u.error == image.imageTag.error
  {
    match image.imageTag
    case Failure(e) => Failure(e)
    case Success(_) => Success(out(RefOf(image), ImageUriAttribute))
  }

  function Plan(fs: Files.FileSystem, name: string, args: Args, parent: Parent): (r: seq<Resource>)
    ensures |r| == 2 && r[0] == Component(ComponentType, name, parent)
    ensures r[1].EcrImage? && r[1].parent == Some(Ref(ComponentType, name))
  {
    [Component(ComponentType, name, parent), ImageDecl(fs, name, args, Some(Ref(ComponentType, name)))]
  }

  class EcrRepositoryPush {
    const image: Resource
    const imageUri: Result<string, string>

    constructor(stack: Stack, fs: Files.FileSystem, name: string, args: Args, parent: Parent, out: Engine)
      modifies stack
      ensures stack.resources == old(stack.resources) + Plan(fs, name, args, parent)
      ensures image == ImageDecl(fs, name, args, Some(Ref(ComponentType, name)))
      ensures imageUri == ImageUri(image, out)
    {
      var img := ImageDecl(fs, name, args, Some(Ref(ComponentType, name)));
      image := img;
      imageUri := ImageUri(img, out);
      new;
      stack.Register(Component(ComponentType, name, parent));
      stack.Register(img);
    }
  }

  /**
   * A readable version file tags the image with exactly its trimmed content, which neither
   * starts nor ends with whitespace; "1.2.3\n" tags it "1.2.3".
   */
  lemma {:induction false} TagIsTrimmedVersion(fs: Files.FileSystem, name: string, args: Args, parent: Parent)
    requires args.versionFilePath in fs.files
    ensures ImageDecl(fs, name, args, parent).imageTag == Success(Trim(fs.files[args.versionFilePath]))
    ensures Trimmed(ImageDecl(fs, name, args, parent).imageTag.value)
    ensures fs.files[args.versionFilePath] == "1.2.3\n" ==> ImageDecl(fs, name, args, parent).imageTag == Success("1.2.3")
  {
    Files.ReadValueIsTrimmed(fs, args.versionFilePath);
    TrimIsUnique(fs.files[args.versionFilePath], ImageDecl(fs, name, args, parent).imageTag.value);
    if fs.files[args.versionFilePath] == "1.2.3\n" {
      Files.ReadVersionLine(fs, args.versionFilePath);
    }
  }

  /** The component declares one image as its child, and exposes that image's URI. */
  lemma ComponentWiring(fs: Files.FileSystem, name: string, args: Args, parent: Parent, out: Engine)
    ensures var p := Plan(fs, name, args, parent);
      && |p| == 2 && p[0] == Component(ComponentType, name, parent)
      && p[1].EcrImage? && p[1].parent == Some(RefOf(p[0]))
      && (args.versionFilePath in fs.files ==> ImageUri(p[1], out) == Success(out(RefOf(p[1]), ImageUriAttribute)))
  {
  }
}
