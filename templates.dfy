/** The text files the builder writes into a project or an APK: fixed
    templates, some with values filled in. */
module Templates {
  import opened Strings

  datatype Document =
    /** The manifest `createAndroidManifest` writes when a project has none. */
    | CreatedAndroidManifest
    /** The module-level build script `createBuildGradle` writes for a path containing `app/build.gradle`. */
    | AppGradle(targetSdk: int, minSdk: int)
    /** The top-level build script `createBuildGradle` writes for any other path. */
    | ProjectGradle
    /** `JSON.stringify` of the object `createPackageJson` builds, indented by two spaces. */
    | PackageJsonFile
    /** The `config.xml` `createConfigXml` writes. */
    | ConfigXml
    /** The `pubspec.yaml` the Flutter creator writes. */
    | Pubspec
    /** The `lib/main.dart` the Flutter creator writes. */
    | MainDart
    /** The `index.js` entry point the React Native creator writes. */
    | IndexJs
    /** The manifest `generateAndroidManifest` puts into the APK. */
    | ApkManifest(packageName: string, versionName: string, minSdk: int, targetSdk: int, appName: string)
    /** `META-INF/MANIFEST.MF`, stamped with the build date. */
    | MetaInfManifest(builtDate: string)
    /** `META-INF/CERT.SF` */
    | CertSf

  /** The text of a document. */
  function Render(d: Document): string {
    match d
    case CreatedAndroidManifest =>
      @"<?xml version=""1.0"" encoding=""utf-8""?>
<manifest xmlns:android=""http://schemas.android.com/apk/res/android""
    package=""com.example.app"">
    
    <uses-permission android:name=""android.permission.INTERNET"" />
    <uses-permission android:name=""android.permission.ACCESS_NETWORK_STATE"" />
    
    <application
        android:allowBackup=""true""
        android:icon=""@mipmap/ic_launcher""
        android:label=""@string/app_name""
        android:theme=""@style/AppTheme"">
        
        <activity
            android:name="".MainActivity""
            android:exported=""true"">
            <intent-filter>
                <action android:name=""android.intent.action.MAIN"" />
                <category android:name=""android.intent.category.LAUNCHER"" />
            </intent-filter>
        </activity>
    </application>
</manifest>"
    case AppGradle(targetSdk, minSdk) =>
      AppGradleText(AppGradleFrame(), targetSdk, minSdk)
    case ProjectGradle =>
      @"buildscript {
    repositories {
        google()
        mavenCentral()
    }
    dependencies {
        classpath 'com.android.tools.build:gradle:7.4.2'
    }
}

allprojects {
    repositories {
        google()
        mavenCentral()
    }
}"
    case PackageJsonFile =>
      @"{
  ""name"": ""mobile-app"",
  ""version"": ""1.0.0"",
  ""main"": ""index.js"",
  ""scripts"": {
    ""android"": ""react-native run-android"",
    ""ios"": ""react-native run-ios"",
    ""start"": ""react-native start""
  },
  ""dependencies"": {
    ""react"": ""18.2.0"",
    ""react-native"": ""0.72.0""
  }
}"
    case ConfigXml =>
      @"<?xml version='1.0' encoding='utf-8'?>
<widget id=""com.example.app"" version=""1.0.0"" xmlns=""http://www.w3.org/ns/widgets"" xmlns:cdv=""http://cordova.apache.org/ns/1.0"">
    <name>Mobile App</name>
    <description>
        A sample Apache Cordova application.
    </description>
    <content src=""index.html"" />
    <access origin=""*"" />
    <allow-intent href=""http://*/*"" />
    <allow-intent href=""https://*/*"" />
    <platform name=""android"">
        <allow-intent href=""market:*"" />
    </platform>
</widget>"
    case Pubspec =>
      @"name: mobile_app
description: A Flutter mobile application
version: 1.0.0+1

environment:
  sdk: '>=2.19.0 <4.0.0'
  flutter: "">=1.17.0""

dependencies:
  flutter:
    sdk: flutter
  cupertino_icons: ^1.0.2

dev_dependencies:
  flutter_test:
    sdk: flutter
  flutter_lints: ^2.0.0

flutter:
  uses-material-design: true"
    case MainDart =>
      @"import 'package:flutter/material.dart';

void main() {
  runApp(MyApp());
}

class MyApp extends StatelessWidget {
  @override
  Widget build(BuildContext context) {
    return MaterialApp(
      title: 'Mobile App',
      theme: ThemeData(
        primarySwatch: Colors.blue,
      ),
      home: MyHomePage(title: 'Mobile App'),
    );
  }
}

class MyHomePage extends StatefulWidget {
  MyHomePage({Key? key, required this.title}) : super(key: key);
  final String title;

  @override
  _MyHomePageState createState() => _MyHomePageState();
}

class _MyHomePageState extends State<MyHomePage> {
  int _counter = 0;

  void _incrementCounter() {
    setState(() {
      _counter++;
    });
  }

  @override
  Widget build(BuildContext context) {
    return Scaffold(
      appBar: AppBar(
        title: Text(widget.title),
      ),
      body: Center(
        child: Column(
          mainAxisAlignment: MainAxisAlignment.center,
          children: <Widget>[
            Text('You have pushed the button this many times:'),
            Text('$_counter', style: Theme.of(context).textTheme.headline4),
          ],
        ),
      ),
      floatingActionButton: FloatingActionButton(
        onPressed: _incrementCounter,
        tooltip: 'Increment',
        child: Icon(Icons.add),
      ),
    );
  }
}"
    case IndexJs =>
      @"import {AppRegistry} from 'react-native';
import App from './App';
import {name as appName} from './app.json';

AppRegistry.registerComponent(appName, () => App);"
    case ApkManifest(packageName, versionName, minSdk, targetSdk, appName) =>
      ApkManifestText(ApkManifestFrame(), packageName, versionName, minSdk, targetSdk, appName)
    case MetaInfManifest(builtDate) =>
      MetaInfText(MetaInfFrame(), builtDate)
    case CertSf =>
      @"Signature-Version: 1.0
Created-By: Mobile APK Converter
SHA1-Digest-Manifest: fedcba0987654321fedcba0987654321fedcba09
SHA1-Digest-Manifest-Main-Attributes: 0987654321fedcba0987654321fedcba09876543
"
  }

  /** An XML attribute: `name="value"`. */
  function Attribute(name: string, value: string): string {
    name + "=\"" + value + "\""
  }

  /** The fixed text of the APK manifest around the attributes that carry values. */
  datatype ManifestFrame = ManifestFrame(
    head: string, gap: string, beforeSdk: string, sdkGap: string, beforeLabel: string, tail: string)

  /** The frame `generateAndroidManifest` uses. */
  function ApkManifestFrame(): ManifestFrame {
    ManifestFrame(
      @"<?xml version=""1.0"" encoding=""utf-8""?>
<manifest xmlns:android=""http://schemas.android.com/apk/res/android""
    ",
      "\n    ",
      @">
    
    <uses-sdk ",
      "\n              ",
      @" />
    
    <uses-permission android:name=""android.permission.INTERNET"" />
    <uses-permission android:name=""android.permission.ACCESS_NETWORK_STATE"" />
    <uses-permission android:name=""android.permission.WRITE_EXTERNAL_STORAGE"" />
    
    <application
        android:allowBackup=""true""
        android:icon=""@mipmap/ic_launcher""
        ",
      @"
        android:theme=""@style/AppTheme"">
        
        <activity
            android:name="".MainActivity""
            android:exported=""true""
            android:launchMode=""singleTop""
            android:theme=""@style/LaunchTheme"">
            <intent-filter>
                <action android:name=""android.intent.action.MAIN"" />
                <category android:name=""android.intent.category.LAUNCHER"" />
            </intent-filter>
        </activity>
    </application>
</manifest>")
  }

  /** The APK manifest in frame `f`, with its attributes in order. */
  function ApkManifestText(f: ManifestFrame, packageName: string, versionName: string, minSdk: int, targetSdk: int,
                           appName: string): string
  {
    Concat([f.head, Attribute("package", packageName),
            f.gap, Attribute("android:versionCode", "1"),
            f.gap, Attribute("android:versionName", versionName),
            f.beforeSdk, Attribute("android:minSdkVersion", IntToString(minSdk)),
            f.sdkGap, Attribute("android:targetSdkVersion", IntToString(targetSdk)),
            f.beforeLabel, Attribute("android:label", appName),
            f.tail])
  }

  /** The parts joined in order. */
  function Concat(parts: seq<string>): string {
    if parts == [] then "" else parts[0] + Concat(parts[1..])
  }

  lemma {:induction false} ConcatSplit(parts: seq<string>, k: nat)
    requires k < |parts|
    ensures Concat(parts) == Concat(parts[..k]) + parts[k] + Concat(parts[k + 1..])
    decreases k
  {
    if k == 0 {
      assert parts[..0] == [] && parts[1..] == parts[k + 1..];
    } else {
      ConcatSplit(parts[1..], k - 1);
      assert parts[1..][..k - 1] == parts[..k][1..];
      assert parts[1..][k - 1 + 1..] == parts[k + 1..];
      assert parts[..k][0] == parts[0];
    }
  }

  /** Every part of a concatenation occurs in it. */
  lemma ContainsPart(parts: seq<string>, k: nat)
    requires k < |parts|
    ensures Contains(Concat(parts), parts[k])
  {
    ConcatSplit(parts, k);
    ContainsMiddle(Concat(parts[..k]), parts[k], Concat(parts[k + 1..]));
  }

  /** A build-script setting: `key value`. */
  function Setting(key: string, value: string): string {
    key + " " + value
  }

  /** The fixed text of the module-level build script around the settings that carry values. */
  datatype GradleFrame = GradleFrame(head: string, beforeMin: string, beforeTarget: string, tail: string)

  /** The frame `createBuildGradle` uses. */
  function AppGradleFrame(): GradleFrame {
    GradleFrame(
      @"android {
    ",
      @"
    
    defaultConfig {
        applicationId ""com.example.app""
        ",
      @"
        ",
      @"
        versionCode 1
        versionName ""1.0""
    }
    
    buildTypes {
        release {
            minifyEnabled false
            proguardFiles getDefaultProguardFile('proguard-android-optimize.txt'), 'proguard-rules.pro'
        }
    }
}

dependencies {
    implementation 'androidx.appcompat:appcompat:1.6.1'
    implementation 'com.google.android.material:material:1.9.0'
    implementation 'androidx.constraintlayout:constraintlayout:2.1.4'
}")
  }

  /** The module-level build script in frame `f`: the target SDK level is also the compile SDK level. */
  function AppGradleText(f: GradleFrame, targetSdk: int, minSdk: int): string {
    Concat([f.head, Setting("compileSdkVersion", IntToString(targetSdk)),
            f.beforeMin, Setting("minSdkVersion", IntToString(minSdk)),
            f.beforeTarget, Setting("targetSdkVersion", IntToString(targetSdk)),
            f.tail])
  }

  /** Whatever text surrounds them, the build script compiles against and targets `targetSdk` and
      sets the minimum level `minSdk`. */
  lemma AppGradleSettings(f: GradleFrame, targetSdk: int, minSdk: int)
    ensures var text := AppGradleText(f, targetSdk, minSdk);
      && Contains(text, Setting("compileSdkVersion", IntToString(targetSdk)))
      && Contains(text, Setting("minSdkVersion", IntToString(minSdk)))
      && Contains(text, Setting("targetSdkVersion", IntToString(targetSdk)))
  {
    var parts := [f.head, Setting("compileSdkVersion", IntToString(targetSdk)),
                  f.beforeMin, Setting("minSdkVersion", IntToString(minSdk)),
                  f.beforeTarget, Setting("targetSdkVersion", IntToString(targetSdk)),
                  f.tail];
    ContainsPart(parts, 1);
    ContainsPart(parts, 3);
    ContainsPart(parts, 5);
  }

  /** The fixed text of `META-INF/MANIFEST.MF` before and after its date line. */
  datatype DateFrame = DateFrame(before: string, after: string)

  /** The frame `generateMetaInf` uses. */
  function MetaInfFrame(): DateFrame {
    DateFrame(
      @"Manifest-Version: 1.0
Created-By: Mobile APK Converter
",
      @"

Name: AndroidManifest.xml
SHA1-Digest: abcdef1234567890abcdef1234567890abcdef12

Name: classes.dex  
SHA1-Digest: 1234567890abcdef1234567890abcdef12345678

Name: resources.arsc
SHA1-Digest: 567890abcdef1234567890abcdef1234567890ab
")
  }

  /** `META-INF/MANIFEST.MF` in frame `f`, stamped with `builtDate`. */
  function MetaInfText(f: DateFrame, builtDate: string): string {
    Concat([f.before, "Built-Date: " + builtDate, f.after])
  }

  /** Whatever text surrounds it, the archive manifest carries the build date it is given. */
  lemma MetaInfDate(f: DateFrame, builtDate: string)
    ensures Contains(MetaInfText(f, builtDate), "Built-Date: " + builtDate)
  {
    ContainsPart([f.before, "Built-Date: " + builtDate, f.after], 1);
  }

  /** Whatever text surrounds them, the APK manifest carries the package, version code, version
      name, SDK levels and label it is given. */
  lemma ApkManifestAttributes(f: ManifestFrame, packageName: string, versionName: string, minSdk: int,
                              targetSdk: int, appName: string)
    ensures var text := ApkManifestText(f, packageName, versionName, minSdk, targetSdk, appName);
      && Contains(text, Attribute("package", packageName))
      && Contains(text, Attribute("android:versionCode", "1"))
      && Contains(text, Attribute("android:versionName", versionName))
      && Contains(text, Attribute("android:minSdkVersion", IntToString(minSdk)))
      && Contains(text, Attribute("android:targetSdkVersion", IntToString(targetSdk)))
      && Contains(text, Attribute("android:label", appName))
  {
    var parts := [f.head, Attribute("package", packageName),
                  f.gap, Attribute("android:versionCode", "1"),
                  f.gap, Attribute("android:versionName", versionName),
                  f.beforeSdk, Attribute("android:minSdkVersion", IntToString(minSdk)),
                  f.sdkGap, Attribute("android:targetSdkVersion", IntToString(targetSdk)),
                  f.beforeLabel, Attribute("android:label", appName),
                  f.tail];
    ContainsPart(parts, 1);
    ContainsPart(parts, 3);
    ContainsPart(parts, 5);
    ContainsPart(parts, 7);
    ContainsPart(parts, 9);
    ContainsPart(parts, 11);
  }
}
