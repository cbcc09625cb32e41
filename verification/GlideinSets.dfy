/** The GlideinSet and GlideinSetCollection resources (api/v1alpha1). */
module GlideinSets {
  import opened Kube
  import opened Names

  const KIND := "GlideinSet"
  const FINALIZER := "gmos.chtc.wisc.edu/finalizer"

  /** `pod` stands for size, resources, priority class, node selector and tolerations, which the
      operator only passes on. */
  datatype SetSpec = SetSpec(name: string, managerUrl: string, collectorUrl: string, pod: string)

  /** `config` stands for image, security, volume, environment and command. */
  datatype Manifest = Manifest(namespace: string, secretName: string, secretDst: string, config: string,
                               repoPath: string, currentCommit: string, previousCommit: string)

  datatype SetBody = SetBody(spec: SetSpec, manifest: Option<Manifest>)

  type SetObject = Object<SetBody>

  datatype Collection = Collection(name: string, namespace: string, managerUrl: string, sets: seq<SetSpec>)

  function SetKey(namespace: string, name: string): Key {
    Key(KIND, namespace, name)
  }

  /** The key under which pollers and collector clients of a resource are registered. */
  function Slot(k: Key): string {
    NamespacedName(k.namespace, k.name)
  }

  function LabelsForPilotSet(name: string): map<string, string> {
    map["app.kubernetes.io/name" := "GlideinSetCollection",
        "app.kubernetes.io/instance" := name,
        "app.kubernetes.io/created-by" := "controller-manager"]
  }

  function WithSpec(o: SetObject, s: SetSpec): SetObject {
    o.(body := o.body.(spec := s))
  }

  function WithManifest(o: SetObject, m: Manifest): SetObject {
    o.(body := o.body.(manifest := Some(m)))
  }
}
