/**
 * pulumi/infra/aws/ecr/pushImageComponent.ts: pushImageECR, the plain-function variant of
 * EcrRepositoryPush. It declares the same image under the caller's parent and returns it
 * with its URI.
 */
module PushImageComponent {
  import opened Wrappers
  import opened Resources
  import opened Text
  import Files
  import EcrRepositoryPush

  /** ImagePushResult, together with the records the call declared. */
  datatype Pushed = Pushed(declared: seq<Resource>, image: Resource, imageUri: Result<string, string>)

  /** pushImageECR: the options are spread into the image's, so its parent is the caller's. */
  function PushImageEcr(fs: Files.FileSystem, name: string, args: EcrRepositoryPush.Args, parent: Parent,
                        out: Engine): (r: Pushed)
    ensures r.declared == [r.image] && r.image.EcrImage? && r.image.parent == parent
    ensures r.imageUri.Success? <==> args.versionFilePath in fs.files
    ensures r.imageUri.Success? ==> r.imageUri.value == out(RefOf(r.image), EcrRepositoryPush.ImageUriAttribute)
  {
    var image := EcrRepositoryPush.ImageDecl(fs, name, args, parent);
    Pushed([image], image, EcrRepositoryPush.ImageUri(image, out))
  }

  /**
   * The function declares the very image the component does, except for the parent, so it
   * too is tagged with the trimmed version and passes URL, context, dockerfile and platform
   * through.
   */
  lemma {:induction false} SameImageAsComponent(fs: Files.FileSystem, name: string, args: EcrRepositoryPush.Args,
                                                parent: Parent, componentParent: Parent, out: Engine)
    ensures var image := PushImageEcr(fs, name, args, parent, out).image;
      var other := EcrRepositoryPush.Plan(fs, name, args, componentParent)[1];
      && image.EcrImage? && other.EcrImage?
      && image.repositoryUrl == other.repositoryUrl && image.context == other.context
      && image.dockerfile == other.dockerfile && image.platform == other.platform
      && image.imageTag == other.imageTag && image.name == other.name
  {
  }

  /**
   * A readable version file tags the image with its trimmed content; an unreadable one
   * rejects both the tag and the returned URI with readFileVersion's error.
   */
  lemma {:induction false} TagAndUri(fs: Files.FileSystem, name: string, args: EcrRepositoryPush.Args, parent: Parent,
                                     out: Engine)
    ensures var r := PushImageEcr(fs, name, args, parent, out);
      && (args.versionFilePath in fs.files ==> r.image.imageTag == Success(Trim(fs.files[args.versionFilePath])))
      && (args.versionFilePath !in fs.files ==>
            r.imageUri == Failure("Failed to read version from " + args.versionFilePath + ": " +
                                  fs.errorMessage(args.versionFilePath)))
  {
    if args.versionFilePath in fs.files {
      EcrRepositoryPush.TagIsTrimmedVersion(fs, name, args, parent);
    }
  }
}
